/** Sequences of events on the `App` screen that show, from the handlers'
    contracts alone, how the debounce, the unguarded fetch results and the
    distance bookkeeping of App.js behave together. */
module AppScenarios {
  import opened Geo
  import opened JsString
  import opened AppController

  /** A distance that is never looked at. */
  function NoDistance(a: Point, b: Point): real {
    0.0
  }

  /** The queries the scenarios fetch are long enough to be searched. */
  lemma SampleQueries()
    ensures Searchable("abc") && Searchable("abcd")
  {
    var abc := "abc";
    assert Utf16Length(abc) >= |abc| == 3;
    SearchableWithoutWhitespace(abc);
    var abcd := abc + "d";
    assert Utf16Length(abcd) >= |abcd| == 4;
    SearchableWithoutWhitespace(abcd);
  }

  /** Keystrokes "a", "ab", "abc", "abcd" before the quiet period ends: the
      two short ones schedule nothing, each longer one replaces the previous
      timer, and when the timer fires a single fetch starts, for "abcd". */
  method TypingStartsOneFetch() returns (fetched: seq<string>, pending: Option<string>)
    ensures fetched == ["abcd"] && pending == None
  {
    SampleQueries();
    var app := new App(NoDistance);
    app.FetchOriginSuggestions("a");
    app.FetchOriginSuggestions("ab");
    app.FetchOriginSuggestions("abc");
    app.FetchOriginSuggestions("abcd");
    app.OriginTimerFires();
    fetched, pending := app.originField.inFlight, app.originField.pending;
  }

  /** Two fetches overlap ("abc", then "abcd") and the older one settles last:
      its results replace the newer ones even though the field now reads
      "abcd", and the spinner is off. */
  method StaleResponseWins(older: Suggestion, newer: Suggestion)
    returns (text: string, shown: seq<Suggestion>, loading: bool)
    ensures text == "abcd" && shown == [older] && !loading
  {
    SampleQueries();
    var app := new App(NoDistance);
    app.FetchOriginSuggestions("abc");
    app.OriginTimerFires();
    app.FetchOriginSuggestions("abcd");
    app.OriginTimerFires();
    assert app.originField.inFlight == ["abc", "abcd"];
    app.OriginFetchSettles(1, ArrayBody([newer]));
    app.OriginFetchSettles(0, ArrayBody([older]));
    text, shown, loading := app.originField.text, app.originField.suggestions, app.originField.loading;
  }

  /** Picking a suggestion does not clear the pending timer: the list it
      emptied is filled again when that timer's fetch settles. */
  method SelectionKeepsTimer(picked: Suggestion, late: Suggestion)
    returns (text: string, shown: seq<Suggestion>)
    ensures text == Title(picked) && shown == [late]
  {
    SampleQueries();
    var app := new App(NoDistance);
    app.FetchOriginSuggestions("abc");
    app.HandleSelectOriginSuggestion(picked);
    assert app.originField.suggestions == [];
    app.OriginTimerFires();
    app.OriginFetchSettles(0, ArrayBody([late]));
    text, shown := app.originField.text, app.originField.suggestions;
  }

  /** A suggestion at `p`, titled `title`. */
  function SuggestionAt(p: Point, title: string): (item: Suggestion)
    ensures Coordinate(item) == Some(p) && Title(item) == title
  {
    Suggestion(Some(title), Some(p.latitude), Some(p.longitude))
  }

  /** Both markers are placed before the startup lookup finishes. The lookup
      moves the origin but leaves the old distance on screen. */
  method StartupLeavesStaleDistance(dist: (Point, Point) -> real, a: Point, b: Point, d: Point)
    returns (shown: Option<real>, originAt: Point)
    requires dist(a, d) != dist(b, d)
    ensures originAt == b
    ensures shown == Some(dist(a, d)) && shown != Some(dist(originAt, d))
  {
    var app := new App(dist);
    app.HandleSelectOriginSuggestion(SuggestionAt(a, "A"));
    app.HandleSelectDestinationSuggestion(SuggestionAt(d, "D"));
    app.LoadInitialLocation(Located(b, Some("B")));
    shown, originAt := app.distance, app.originCoord.value.at;
  }

  /** The recenter button hides the distance but keeps the destination, so
      the "use current location" button brings the distance back. */
  method RecenterThenUseCurrentLocation(dist: (Point, Point) -> real, here: Point, d: Point)
    returns (afterRecenter: Option<real>, afterUse: Option<real>)
    ensures afterRecenter == None && afterUse == Some(dist(here, d))
  {
    var app := new App(dist);
    app.LoadInitialLocation(Located(here, None));
    app.HandleSelectDestinationSuggestion(SuggestionAt(d, "D"));
    var alerted := app.CenterOnCurrentLocation(true);
    afterRecenter := app.distance;
    app.UseCurrentLocationAsOrigin();
    afterUse := app.distance;
  }
}
