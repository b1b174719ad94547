/** The origin/destination selection controller of the `App` screen (App.js).
    Each React state hook is a field of class `App`; each handler, the two
    debounce-timer bodies and the one-shot startup effect is a method. The
    haversine distance is the function `dist`, fixed when the screen is built. */
module AppController {
  import opened Geo
  import opened JsString

  /** How an autocomplete fetch settles: the parsed body is a JSON array, the
      parsed body is anything else, or `fetch`/`res.json()` throws. */
  datatype FetchResult = ArrayBody(items: seq<Suggestion>) | OtherBody | Failed

  /** `item.display_name || ''`. */
  function Title(item: Suggestion): string {
    OrElse(item.displayName, "")
  }

  /** The point a suggestion designates, if both `lat` and `lon` are truthy. */
  function Coordinate(item: Suggestion): Option<Point> {
    if item.lat.None? || item.lon.None? then None else Some(Point(item.lat.value, item.lon.value))
  }

  /** The state of one search input: its text (`origin`/`destination`), its
      suggestion list, its spinner flag, its debounce timer slot (the query of
      the timer that is scheduled and not cleared, if any) and the queries of
      the fetches its timers have started and that have not settled yet. */
  datatype SearchField = SearchField(
    text: string,
    suggestions: seq<Suggestion>,
    loading: bool,
    pending: Option<string>,
    inFlight: seq<string>)
  {
    /** Only a searchable query is ever scheduled or fetched, and the spinner
        is only on while a fetch is outstanding. */
    predicate Valid() {
      (pending.Some? ==> Searchable(pending.value))
      && (forall q :: q in inFlight ==> Searchable(q))
      && (loading ==> inFlight != [])
    }
  }

  const EMPTY_FIELD := SearchField("", [], false, None, [])

  class App {
    /** `getDistanceFromLatLonInKm`, left uninterpreted. */
    const dist: (Point, Point) -> real

    var currentLocation: Option<Point>
    var currentAddress: Option<string>
    var region: Option<Point>

    /** `origin`, `originSuggestions`, `loadingOrigin`, `originTimeoutRef`. */
    var originField: SearchField
    var selectingOrigin: bool
    var originCoord: Option<LabeledPoint>

    /** `destination`, `destinationSuggestions`, `loadingDestination`, `destTimeoutRef`. */
    var destinationField: SearchField
    var destinationCoord: Option<LabeledPoint>

    var distance: Option<real>

    /** What every event keeps: both fields are valid, and a distance is only
        shown between two placed markers. */
    ghost predicate Valid()
      reads this
    {
      originField.Valid() && destinationField.Valid()
      && (distance.Some? ==> originCoord.Some? && destinationCoord.Some?)
    }

    /** The shown distance is the distance between the two markers. */
    ghost predicate DistanceConsistent()
      reads this`distance, this`originCoord, this`destinationCoord
    {
      distance.Some? ==>
        originCoord.Some? && destinationCoord.Some?
        && distance.value == dist(originCoord.value.at, destinationCoord.value.at)
    }

    /** No event takes a marker away once it is placed. */
    twostate predicate MarkersKept()
      reads this`originCoord, this`destinationCoord
    {
      (old(originCoord).Some? ==> originCoord.Some?)
      && (old(destinationCoord).Some? ==> destinationCoord.Some?)
    }

    /** The initial values of the screen's state hooks. */
    constructor (dist: (Point, Point) -> real)
      ensures this.dist == dist
      ensures Valid() && DistanceConsistent()
      ensures currentLocation == None && currentAddress == None && region == None
      ensures originField == EMPTY_FIELD && !selectingOrigin && originCoord == None
      ensures destinationField == EMPTY_FIELD && destinationCoord == None
      ensures distance == None
    {
      this.dist := dist;
      currentLocation, currentAddress, region := None, None, None;
      originField, selectingOrigin, originCoord := EMPTY_FIELD, false, None;
      destinationField, destinationCoord := EMPTY_FIELD, None;
      distance := None;
    }

    /** The startup effect: ask for permission, read the position, reverse
        geocode it, then place the origin marker there. A refused permission
        returns early; any thrown failure is caught and logged. The distance is
        not recomputed, even when a destination is already placed.
        The effect stores `currentLocation` before it awaits the reverse
        geocoding, so user events can come in between: such a run is
        `LoadInitialLocation(ReverseFails(p))`, then those events, then
        `LoadInitialLocation(Located(p, name))`. */
    method LoadInitialLocation(outcome: LocationOutcome)
      requires Valid()
      modifies this
      ensures Valid() && MarkersKept()
      ensures outcome.Denied? || outcome.PositionFails? ==>
        currentLocation == old(currentLocation) && currentAddress == old(currentAddress)
        && region == old(region) && originCoord == old(originCoord)
        && originField == old(originField)
      ensures outcome.ReverseFails? ==>
        currentLocation == Some(outcome.position) && currentAddress == old(currentAddress)
        && region == old(region) && originCoord == old(originCoord)
        && originField == old(originField)
      ensures outcome.Located? ==>
        var address := OrElse(outcome.displayName, CURRENT_LOCATION_LABEL);
        currentLocation == Some(outcome.position) && currentAddress == Some(address)
        && region == Some(outcome.position)
        && originCoord == Some(LabeledPoint(outcome.position, address))
        && originField == old(originField).(text := address)
      ensures distance == old(distance) && destinationCoord == old(destinationCoord)
      ensures selectingOrigin == old(selectingOrigin) && destinationField == old(destinationField)
    {
      match outcome {
        case Denied =>
          return;
        case PositionFails =>
          return;
        case ReverseFails(position) =>
          currentLocation := Some(position);
        case Located(position, displayName) =>
          currentLocation := Some(position);
          var address := OrElse(displayName, CURRENT_LOCATION_LABEL);
          currentAddress := Some(address);
          region := Some(position);
          originCoord := Some(LabeledPoint(position, address));
          originField := originField.(text := address);
      }
    }

    /** `onChangeText` of the origin input: echo the text, enter selecting
        mode, clear the pending timer, then either clear the suggestions (a
        query under three characters once trimmed) or schedule one fetch for
        this text. Fetches already in flight are left to settle. */
    method FetchOriginSuggestions(text: string)
      requires Valid()
      modifies this`originField, this`selectingOrigin
      ensures Valid()
      ensures originField.text == text && selectingOrigin
      ensures originField.pending == (if Searchable(text) then Some(text) else None)
      ensures !Searchable(text) ==> originField.suggestions == []
      ensures Searchable(text) ==> originField.suggestions == old(originField.suggestions)
      ensures originField.loading == old(originField.loading)
      ensures originField.inFlight == old(originField.inFlight)
    {
      selectingOrigin := true;
      originField := originField.(text := text, pending := None);
      if !Searchable(text) {
        originField := originField.(suggestions := []);
        return;
      }
      originField := originField.(pending := Some(text));
    }

    /** `onFocus` of the origin input. */
    method FocusOrigin()
      requires Valid()
      modifies this`selectingOrigin
      ensures Valid() && selectingOrigin
    {
      selectingOrigin := true;
    }

    /** The origin timer elapses: show the spinner and start the fetch for the
        query the timer captured. */
    method OriginTimerFires()
      requires Valid() && originField.pending.Some?
      modifies this`originField
      ensures Valid()
      ensures originField.loading && originField.pending == None
      ensures originField.inFlight == old(originField.inFlight) + [old(originField.pending.value)]
      ensures originField.text == old(originField.text)
      ensures originField.suggestions == old(originField.suggestions)
    {
      originField := originField.(loading := true);
      originField := originField.(inFlight := originField.inFlight + [originField.pending.value]);
      originField := originField.(pending := None);
    }

    /** The `k`-th outstanding origin fetch settles. Its suggestions are
        written whichever fetch it is, even one a later keystroke has
        superseded, and the spinner goes off even if other fetches are still
        outstanding. */
    method OriginFetchSettles(k: nat, result: FetchResult)
      requires Valid() && k < |originField.inFlight|
      modifies this`originField
      ensures Valid()
      ensures originField.suggestions == (if result.ArrayBody? then result.items else [])
      ensures !originField.loading
      ensures originField.inFlight == old(originField.inFlight[..k] + originField.inFlight[k + 1..])
      ensures originField.text == old(originField.text)
      ensures originField.pending == old(originField.pending)
    {
      match result {
        case ArrayBody(items) =>
          originField := originField.(suggestions := items);
        case OtherBody =>
          originField := originField.(suggestions := []);
        case Failed =>
          originField := originField.(suggestions := []);
      }
      originField := originField.(loading := false);
      originField := originField.(inFlight := originField.inFlight[..k] + originField.inFlight[k + 1..]);
    }

    /** A tap on an origin suggestion. The text and the cleared list happen in
        every case; a suggestion without coordinates stops there. Otherwise the
        origin marker and the region move to it, and the distance is
        recomputed when a destination is placed. The pending timer is not
        cleared. */
    method HandleSelectOriginSuggestion(item: Suggestion)
      requires Valid()
      modifies this
      ensures Valid() && MarkersKept()
      ensures originField == old(originField).(text := Title(item), suggestions := [])
      ensures !selectingOrigin
      ensures Coordinate(item).None? ==>
        originCoord == old(originCoord) && region == old(region) && distance == old(distance)
      ensures Coordinate(item).Some? ==>
        originCoord == Some(LabeledPoint(Coordinate(item).value, Title(item)))
        && region == Some(Coordinate(item).value)
        && distance == (if destinationCoord.Some?
                        then Some(dist(Coordinate(item).value, destinationCoord.value.at))
                        else old(distance))
        && DistanceConsistent()
      ensures old(DistanceConsistent()) ==> DistanceConsistent()
      ensures destinationCoord == old(destinationCoord) && destinationField == old(destinationField)
      ensures currentLocation == old(currentLocation) && currentAddress == old(currentAddress)
    {
      originField := originField.(text := Title(item));
      originField := originField.(suggestions := []);
      selectingOrigin := false;
      if item.lat.None? || item.lon.None? {
        return;
      }
      var coord := LabeledPoint(Point(item.lat.value, item.lon.value), Title(item));
      originCoord := Some(coord);
      region := Some(coord.at);
      if destinationCoord.Some? {
        distance := Some(dist(coord.at, destinationCoord.value.at));
      }
    }

    /** `onChangeText` of the destination input; as for the origin, without a
        selecting flag. */
    method FetchDestinationSuggestions(text: string)
      requires Valid()
      modifies this`destinationField
      ensures Valid()
      ensures destinationField.text == text
      ensures destinationField.pending == (if Searchable(text) then Some(text) else None)
      ensures !Searchable(text) ==> destinationField.suggestions == []
      ensures Searchable(text) ==> destinationField.suggestions == old(destinationField.suggestions)
      ensures destinationField.loading == old(destinationField.loading)
      ensures destinationField.inFlight == old(destinationField.inFlight)
    {
      destinationField := destinationField.(text := text);
      destinationField := destinationField.(pending := None);
      if !Searchable(text) {
        destinationField := destinationField.(suggestions := []);
        return;
      }
      destinationField := destinationField.(pending := Some(text));
    }

    /** The destination timer elapses. */
    method DestinationTimerFires()
      requires Valid() && destinationField.pending.Some?
      modifies this`destinationField
      ensures Valid()
      ensures destinationField.loading && destinationField.pending == None
      ensures destinationField.inFlight
        == old(destinationField.inFlight) + [old(destinationField.pending.value)]
      ensures destinationField.text == old(destinationField.text)
      ensures destinationField.suggestions == old(destinationField.suggestions)
    {
      destinationField := destinationField.(loading := true);
      destinationField := destinationField.(inFlight := destinationField.inFlight + [destinationField.pending.value]);
      destinationField := destinationField.(pending := None);
    }

    /** The `k`-th outstanding destination fetch settles, with no check that it
        is the latest one. */
    method DestinationFetchSettles(k: nat, result: FetchResult)
      requires Valid() && k < |destinationField.inFlight|
      modifies this`destinationField
      ensures Valid()
      ensures destinationField.suggestions == (if result.ArrayBody? then result.items else [])
      ensures !destinationField.loading
      ensures destinationField.inFlight
        == old(destinationField.inFlight[..k] + destinationField.inFlight[k + 1..])
      ensures destinationField.text == old(destinationField.text)
      ensures destinationField.pending == old(destinationField.pending)
    {
      match result {
        case ArrayBody(items) =>
          destinationField := destinationField.(suggestions := items);
        case OtherBody =>
          destinationField := destinationField.(suggestions := []);
        case Failed =>
          destinationField := destinationField.(suggestions := []);
      }
      destinationField := destinationField.(loading := false);
      destinationField := destinationField.(inFlight := destinationField.inFlight[..k] + destinationField.inFlight[k + 1..]);
    }

    /** A tap on a destination suggestion; the mirror image of the origin's. */
    method HandleSelectDestinationSuggestion(item: Suggestion)
      requires Valid()
      modifies this
      ensures Valid() && MarkersKept()
      ensures destinationField == old(destinationField).(text := Title(item), suggestions := [])
      ensures Coordinate(item).None? ==>
        destinationCoord == old(destinationCoord) && region == old(region) && distance == old(distance)
      ensures Coordinate(item).Some? ==>
        destinationCoord == Some(LabeledPoint(Coordinate(item).value, Title(item)))
        && region == Some(Coordinate(item).value)
        && distance == (if originCoord.Some?
                        then Some(dist(originCoord.value.at, Coordinate(item).value))
                        else old(distance))
        && DistanceConsistent()
      ensures old(DistanceConsistent()) ==> DistanceConsistent()
      ensures originCoord == old(originCoord) && originField == old(originField)
      ensures selectingOrigin == old(selectingOrigin)
      ensures currentLocation == old(currentLocation) && currentAddress == old(currentAddress)
    {
      destinationField := destinationField.(text := Title(item));
      destinationField := destinationField.(suggestions := []);
      if item.lat.None? || item.lon.None? {
        return;
      }
      var coord := LabeledPoint(Point(item.lat.value, item.lon.value), Title(item));
      destinationCoord := Some(coord);
      region := Some(coord.at);
      if originCoord.Some? {
        distance := Some(dist(originCoord.value.at, coord.at));
      }
    }

    /** The "use current location" button. Without a known location it does
        nothing; otherwise the origin becomes the device position, titled with
        the known address, and the distance is recomputed when a destination is
        placed. The destination and the origin's timer and fetches are left
        alone. */
    method UseCurrentLocationAsOrigin()
      requires Valid()
      modifies this
      ensures Valid() && MarkersKept()
      ensures currentLocation == old(currentLocation) && currentAddress == old(currentAddress)
      ensures currentLocation.None? ==>
        originField == old(originField) && selectingOrigin == old(selectingOrigin)
        && originCoord == old(originCoord) && region == old(region) && distance == old(distance)
      ensures currentLocation.Some? ==>
        var here := LabeledPoint(currentLocation.value, OrElse(currentAddress, CURRENT_LOCATION_LABEL));
        originCoord == Some(here)
        && originField == old(originField).(text := here.title, suggestions := [])
        && !selectingOrigin
        && region == Some(here.at)
        && distance == (if destinationCoord.Some?
                        then Some(dist(here.at, destinationCoord.value.at))
                        else old(distance))
        && DistanceConsistent()
      ensures old(DistanceConsistent()) ==> DistanceConsistent()
      ensures destinationCoord == old(destinationCoord) && destinationField == old(destinationField)
    {
      if currentLocation.None? {
        return;
      }
      var coord := LabeledPoint(currentLocation.value, OrElse(currentAddress, CURRENT_LOCATION_LABEL));
      originField := originField.(text := coord.title);
      originCoord := Some(coord);
      originField := originField.(suggestions := []);
      selectingOrigin := false;
      region := Some(coord.at);
      if destinationCoord.Some? {
        distance := Some(dist(coord.at, destinationCoord.value.at));
      }
    }

    /** The floating recenter button. Without a known location or a mounted
        map it only raises an alert (`alerted`). Otherwise it recentres on the
        device, resets the origin there, empties both suggestion lists and
        hides the distance, keeping the destination marker. */
    method CenterOnCurrentLocation(mapMounted: bool) returns (alerted: bool)
      requires Valid()
      modifies this
      ensures Valid() && MarkersKept()
      ensures currentLocation == old(currentLocation) && currentAddress == old(currentAddress)
      ensures alerted <==> currentLocation.None? || !mapMounted
      ensures alerted ==>
        originField == old(originField) && destinationField == old(destinationField)
        && originCoord == old(originCoord) && region == old(region) && distance == old(distance)
      ensures !alerted ==>
        var address := OrElse(currentAddress, CURRENT_LOCATION_LABEL);
        region == Some(currentLocation.value)
        && originCoord == Some(LabeledPoint(currentLocation.value, address))
        && originField == old(originField).(text := address, suggestions := [])
        && destinationField == old(destinationField).(suggestions := [])
        && distance == None
      ensures old(DistanceConsistent()) ==> DistanceConsistent()
      ensures destinationCoord == old(destinationCoord) && selectingOrigin == old(selectingOrigin)
    {
      if currentLocation.None? || !mapMounted {
        alerted := true;
        return;
      }
      alerted := false;
      var address := OrElse(currentAddress, CURRENT_LOCATION_LABEL);
      region := Some(currentLocation.value);
      originCoord := Some(LabeledPoint(currentLocation.value, address));
      originField := originField.(text := address);
      originField := originField.(suggestions := []);
      destinationField := destinationField.(suggestions := []);
      distance := None;
    }
  }
}
