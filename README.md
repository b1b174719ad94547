# Origin/destination search on a map screen, in Dafny

This project models the event-driven core of a small React Native map app.
The user picks an origin and a destination, either by typing in two
autocomplete fields or by using the device's current location. The app puts
both on the map as markers and shows the great-circle distance between them.
Two pieces are modelled:

* **The `App` screen controller (App.js)**, as class `AppController.App`.
  The screen's state hooks are the class's fields. Each field's text,
  suggestion list, spinner flag, debounce timer slot and outstanding fetches
  are grouped in one `SearchField` record. Every handler is a method:
  * typing in either field;
  * the debounce timer firing;
  * a suggestion fetch settling;
  * picking a suggestion;
  * the "use current location" button;
  * the recenter button;
  * focusing the origin field;
  * the one-shot startup lookup.

  A debounce timer is a slot holding the query it captured. Timer firing and
  fetch settling are separate events, and what the network returns is a
  parameter of the event. The haversine distance is the function `dist`,
  fixed when the screen is built and otherwise left uninterpreted.
* **The location provider (contexts/LocationContext.js)**, as class
  `LocationContext.LocationProvider`. One lookup runs the permission prompt,
  the position read and the reverse geocoding as one method. How the lookup
  went is a `LocationOutcome` parameter: denied, the permission request or
  the position read throws, the reverse geocoding throws, or everything
  succeeds.

The JavaScript string rules both files rely on are functions in module
`JsString`:
* `text.trim().length < 3`, with ECMAScript's set of whitespace characters
  and with `length` counting UTF-16 code units, so that a character outside
  the Basic Multilingual Plane counts twice;
* `display_name.split(',')[0]`;
* `x || fallback` on possibly missing strings.

Invariants kept by the controller:
* `App.Valid()`:
  * a distance is shown only when both markers are placed;
  * only a query whose trim is three or more UTF-16 code units long is ever
    scheduled or fetched;
  * a field's spinner is on only while one of its fetches is outstanding.
* `App.DistanceConsistent()`: the shown distance is `dist` of the two markers.
  Every handler keeps it, and a selection that places a marker restores it.
  The exception is the startup lookup, which moves the origin without
  recomputing the distance (App.js:84-89). That lookup stores the position
  (App.js:65) before it awaits the reverse geocoding, so user events can come
  in between; the model writes such a run as a `ReverseFails` lookup, the
  events, then a `Located` lookup for the same position. `AppScenarios.StartupLeavesStaleDistance`
  shows a run that ends with a stale distance.
* `App.MarkersKept()`: no event removes a placed marker.

Three behaviours of App.js are easy to miss, and the model follows each:
* No response is ever discarded as stale. Typing clears only the pending
  timer (App.js:100), and a settling fetch writes its list whatever was typed
  since (App.js:115, App.js:167). `OriginFetchSettles` and
  `DestinationFetchSettles` accept any outstanding fetch, and
  `AppScenarios.StaleResponseWins` shows an older response replacing a newer
  one.
* Picking a suggestion does not clear the pending timer (App.js:124-128), so
  that timer's fetch can refill the list afterwards
  (`AppScenarios.SelectionKeepsTimer`).
* Picking a suggestion without coordinates still sets the text and empties
  the list (App.js:125-128, App.js:177-179).

## Model

| member | source | states |
|---|---|---|
| `JsString.Trim` | App.js:102 | `text.trim()` is no longer than the text and, when not empty, starts and ends with a non-whitespace character |
| `JsString.TrimIsSlice` | App.js:102 | `text.trim()` is the slice of the text between its leading and its trailing runs of whitespace |
| `JsString.TrimIdempotent` | App.js:102 | trimming an already trimmed text changes nothing |
| `JsString.Utf16Length` | App.js:102 | a string's `length` lies between its number of characters and twice that |
| `JsString.Utf16LengthAppend` | App.js:102 | the `length` of a concatenation is the sum of the lengths |
| `JsString.Searchable` | App.js:102 | `text.trim().length >= 3`; a text that passes is itself at least three code units long |
| `JsString.SearchableIff` | App.js:102 | a text passes the rule exactly when it has two non-whitespace characters, in order, whose stretch from the one to the other is at least three UTF-16 code units long |
| `JsString.SearchableWithoutWhitespace` | App.js:154 | a text of three or more code units none of which is whitespace passes the rule and is its own trim |
| `JsString.AstralCharacterCountsTwice` | App.js:102 | an emoji followed by one letter, two characters, passes the rule, as its `length` is 3 |
| `JsString.FirstSegment` | contexts/LocationContext.js:52-53 | `split(',')[0]` is a comma-free prefix of the string that is the whole string or is followed by a comma |
| `JsString.FirstSegmentUnique` | contexts/LocationContext.js:52-53 | only one string has those properties, so they define `split(',')[0]` |
| `JsString.FirstSegmentNoComma` | contexts/LocationContext.js:52-53 | a string without a comma is its own first segment |
| `JsString.FirstSegmentOfJoin` | contexts/LocationContext.js:52-53 | the first segment of `head + "," + tail` is `head` when `head` has no comma |
| `AppController.App.constructor` | App.js:26-55 | the initial state: empty fields, no markers, no distance, no known location |
| `AppController.App.LoadInitialLocation` | App.js:58-94 | a refused permission, or a permission request or position read that throws, changes nothing; a failed reverse geocoding stores only the position; success stores position and address (`display_name` or the generic label), recentres, and places the origin there with that title, leaving the distance as it was |
| `AppController.App.FetchOriginSuggestions` | App.js:97-107 | the text is echoed and selecting mode entered; a query whose trim is under three UTF-16 code units empties the list and leaves no timer; a longer one replaces any pending timer with one for this text; outstanding fetches and the rest of the screen are untouched |
| `AppController.App.FocusOrigin` | App.js:323 | focusing the origin field enters selecting mode |
| `AppController.App.OriginTimerFires` | App.js:107-112 | the pending timer's query becomes an outstanding fetch, the spinner turns on and no timer remains |
| `AppController.App.OriginFetchSettles` | App.js:113-120 | any outstanding fetch settling writes the array it got, or `[]` for a non-array body or a thrown failure, and turns the spinner off |
| `AppController.App.HandleSelectOriginSuggestion` | App.js:124-147 | the text becomes the title and the list empties; without coordinates nothing else changes; with them the origin marker and region move there, the distance is recomputed only when a destination exists, and the distance is then consistent |
| `AppController.App.FetchDestinationSuggestions` | App.js:150-159 | the destination counterpart of typing, without a selecting flag |
| `AppController.App.DestinationTimerFires` | App.js:159-164 | the destination counterpart of the timer firing |
| `AppController.App.DestinationFetchSettles` | App.js:165-172 | the destination counterpart of a fetch settling, with no staleness check |
| `AppController.App.HandleSelectDestinationSuggestion` | App.js:176-198 | the destination counterpart of picking a suggestion, measuring from the origin marker |
| `AppController.App.UseCurrentLocationAsOrigin` | App.js:201-222 | with no known location nothing changes; otherwise the origin becomes the location, titled with the address or the generic label, the list empties and selecting mode ends, the destination is untouched, and the distance is recomputed only when a destination exists |
| `AppController.App.CenterOnCurrentLocation` | App.js:225-243 | with no location or no map only an alert results; otherwise the origin is reset to the location, both lists empty, the distance is hidden and the destination marker stays |
| `AppScenarios.TypingStartsOneFetch` | App.js:97-121 | typing "a", "ab", "abc", "abcd" and letting the timer fire starts exactly one fetch, for "abcd" |
| `AppScenarios.StaleResponseWins` | App.js:107-120 | when two fetches overlap and the older settles last, its results are shown under the newer text |
| `AppScenarios.SelectionKeepsTimer` | App.js:124-128 | picking a suggestion while a timer is pending does not stop that timer's results from refilling the list |
| `AppScenarios.StartupLeavesStaleDistance` | App.js:84-89 | markers placed before the startup lookup finishes leave a distance that no longer matches the moved origin |
| `AppScenarios.RecenterThenUseCurrentLocation` | App.js:218-241 | recentring hides the distance but keeps the destination, so "use current location" brings it back |
| `LocationContext.LocationProvider.constructor` | contexts/LocationContext.js:9-15 | no location, empty address, loading, no error |
| `LocationContext.LocationProvider.GetCurrentLocation` | contexts/LocationContext.js:23-67 | loading ends on every path; an error is set exactly when the permission is refused or a step throws; refusal keeps the location and gives the generic label with the permission error; a throw gives the generic label with the lookup error, keeping the position if it was already read; success stores the position and the text before the first comma of a usable `display_name`, else the generic label |
| `LocationContext.LocationProvider.RefreshLocation` | contexts/LocationContext.js:70-72 | a refresh leaves exactly the state a fresh lookup leaves |
| `LocationContext.RetryAfterDenial` | contexts/LocationContext.js:26-53 | a successful refresh after a refusal clears the error and shows the street part of the address |

## Left out

- The haversine formula (App.js:13-23): floating-point trigonometry. The
  distance is the uninterpreted function `dist`; no symmetry or value is claimed.
- Formatting the distance as metres or kilometres (App.js:307): floating-point
  rounding and `toFixed`.
- The network and the device: `fetch`, `res.json()`, the permission prompt
  and the position read. Their results are event parameters (`FetchResult`,
  `LocationOutcome`).
- The request URLs: `encodeURIComponent`, number formatting and the viewbox
  bias built from the current location (App.js:112, App.js:164). They affect
  only what the geocoder is asked.
- `Number(item.lat)` on a non-numeric string, which yields NaN. A suggestion
  carries its coordinates already as numbers, or as absent when falsy.
- The 300 ms quiet period. A timer is a slot that fires when the environment
  says so.
- The map animation, the 0.01 region deltas, the alert text, console
  logging, and all JSX and styles (App.js:245-425). The region is modelled as
  its centre only.
- JavaScript strings holding an unpaired surrogate: a Dafny `string` holds
  Unicode scalar values only, so such a text is not representable.
- React's render cycle. Each event sees the state left by the previous one.
  Handlers read state as of the last render, which is the same state once
  events are handled one at a time.
- React context plumbing (`createContext`, the provider's JSX and the
  `useLocation` guard, contexts/LocationContext.js:5 and 75-96), and the
  provider's mount effect (lines 18-20), which is one `GetCurrentLocation` call.
- LocationContext.LocationProvider.GetCurrentLocation: states only the state
  a lookup ends in. The loading flag and the cleared error during the awaits
  are not observable, because the awaits are folded into one step.
