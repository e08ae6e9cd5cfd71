# Shuttle dashboard core, modelled in Dafny

This project models the logic inside the campus shuttle-tracking dashboard.
It covers three pieces:

- **Live map** (`src/components/LiveMap.tsx`):
  - the 14-landmark table;
  - marker initialisation, one marker per shuttle;
  - the per-tick marker step: arrival re-targeting, steering toward the target landmark, clamping to the map edge with the velocity reflected inward;
  - the colour lookup with its `#999` fallback;
  - the zero-padded three-digit id label.
- **Admin shuttle management** (`src/AdminShuttleManagement.tsx`):
  - the search filter;
  - the by-id list updates (status toggle, route append, advance-route response);
  - the new-shuttle item;
  - the add-shuttle and add-route guards;
  - the vehicle request defaults;
  - the page state that the handlers change.
- **Shuttle context** (`src/ShuttleContext.tsx`):
  - the vehicle-to-shuttle transform with its defaults;
  - the six-item fallback list used when loading fails;
  - the `loading`/`error` outcome of the fetch;
  - `setShuttles`.

The modules are:

- `Outcomes`: optional values, the settled result of an awaited call, and the alert text of a failed call.
- `Chance`: `Math.random()` is an injected real in `[0,1)`; `Math.floor(r * n)` becomes `Pick`.
- `Text`:
  - `String(n)` for integers;
  - `padStart`;
  - ASCII `toLowerCase`;
  - `includes`, with a proof that the recursive search agrees with "occurs at some index";
  - decimal parsing, used to state what a label denotes.
- `ShuttleContext`:
  - the `Route`, `Vehicle` and `Shuttle` records;
  - the transform and the fallback list;
  - the `Provider` class, whose fields are the provider's React state (`shuttles`, `loading`, `error`).
- `LiveMap`:
  - landmarks and markers;
  - the specification of one marker step (`Stepped`) and its properties;
  - the imperative `StepMarker`, proved equal to that specification;
  - the `LiveMapState` class, whose `Tick` replaces every marker;
  - colours and labels.
- `AdminShuttleManagement`:
  - the pure list operations and their lemmas;
  - the `AdminPage` class, whose handlers update the page state and the shared shuttle list.

Some inputs come from outside the model:

- Awaited API calls are parameters of type `Reply<T>`: `Resolved(value)` or `Rejected(message)`.
- `Math.random()` results are parameters in `[0,1)`.
- `Math.sqrt` is a parameter `sqrt: real -> real`. The tick requires it to give the true non-negative root at the points where it is used.
- Coordinates are `real`.

## Model

| member | source | states |
|---|---|---|
| Outcomes.AlertText | src/AdminShuttleManagement.tsx:94-95 | a failure alert shows the error's message when there is one, otherwise the handler's fallback text |
| Chance.Pick | src/components/LiveMap.tsx:60 | `Math.floor(r * n)` for `r` in `[0,1)` is an index below `n` |
| Chance.PickReaches | src/components/LiveMap.tsx:60 | every index below `n` is reached by some draw in `[0,1)` |
| Text.NatToString | src/components/LiveMap.tsx:170 | `String(n)` is a non-empty digit string with a leading zero only for 0, and a single digit below 10 (so `String(0)` is `0`) |
| Text.ParseNatToString | src/components/LiveMap.tsx:170 | the digits of `String(n)` denote `n` |
| Text.ParseLeadingZeros | src/components/LiveMap.tsx:170 | leading zeros do not change the number a digit string denotes |
| Text.PadStart | src/components/LiveMap.tsx:170 | `padStart` gives length max(width, length), ends with the original string, and has only fill characters before it |
| Text.LowerChar | src/AdminShuttleManagement.tsx:55-56 | one character lower-cased: never a capital afterwards, a capital becomes the same letter in lower case, anything else is kept |
| Text.Lower | src/AdminShuttleManagement.tsx:55-56 | lower-casing keeps the length, leaves no capital, turns each capital into its lower-case letter and keeps every other character |
| Text.LowerIdempotent | src/AdminShuttleManagement.tsx:55-56 | lower-casing an already lower-cased string changes nothing |
| Text.Contains | src/AdminShuttleManagement.tsx:55-56 | `includes`: a contained term is no longer than the text, and the empty term is contained in every text |
| Text.ContainsIffOccurs | src/AdminShuttleManagement.tsx:55-56 | `includes` holds exactly when the term occurs at some index |
| ShuttleContext.ToShuttle | src/ShuttleContext.tsx:39-50 | field renaming; missing routes give `[]`, a missing or zero route index gives 0, next route copied or null |
| ShuttleContext.Transform | src/ShuttleContext.tsx:39-50 | one shuttle per vehicle, in order, each the record transform of its vehicle |
| ShuttleContext.TransformAppend | src/ShuttleContext.tsx:39 | the transform distributes over concatenation (it is an element-wise map) |
| ShuttleContext.Fallback | src/ShuttleContext.tsx:58-72 | exactly six shuttles, ids 1..6 in order, active at even index, colour from the eight names, type `Bus`, model `Model X`, no routes, index 0, no next route |
| ShuttleContext.FallbackLabels | src/ShuttleContext.tsx:62-65 | status holds exactly for ids 1, 3, 5; driver is exactly `Driver ` and plate exactly `PLATE-` followed by `String(id)`, whose digits read back as the id |
| ShuttleContext.Provider.constructor | src/ShuttleContext.tsx:27-29 | the provider starts with no shuttles, loading, and no error |
| ShuttleContext.Provider.FetchShuttles | src/ShuttleContext.tsx:33-75 | success stores the transform and clears the error; failure stores the fallback list and the load-failure message; loading is false either way |
| ShuttleContext.Provider.SetShuttles | src/ShuttleContext.tsx:81-87 | the list becomes the given value or the updater applied to the previous list; both branches of the source store the same thing, so one ensures covers both |
| LiveMap.LandmarksInside | src/components/LiveMap.tsx:5-20 | every landmark lies in [120,720]×[100,480] |
| LiveMap.InitMarkers | src/components/LiveMap.tsx:52-61 | one marker per shuttle in order, id and colour copied, x in [50,750), y in [50,550), vx and vy in [-0.75,0.75), target a landmark index |
| LiveMap.InitCanStartOutside | src/components/LiveMap.tsx:56 | an initial y can lie beyond the 520 clamp ceiling of line 99, so initialisation does not establish the map bounds |
| LiveMap.Bounce | src/components/LiveMap.tsx:96-99 | an axis ends within the edges with unchanged speed; below the low edge it is set to that edge moving up, above the high edge to that edge moving down, otherwise untouched |
| LiveMap.Stepped | src/components/LiveMap.tsx:69-107 | the step keeps id and colour; within 15 of the target only the target index changes and stays a landmark index; beyond 15 the target is kept |
| LiveMap.SteppedInBounds | src/components/LiveMap.tsx:79-99 | after a step every marker lies in [20,780]×[20,520]: by the clamps when steering, and on arrival because every landmark (lines 5-20) is well inside |
| LiveMap.SteeringVelocity | src/components/LiveMap.tsx:79-99 | when steering, the new velocity has magnitude 1.2, each component has the heading's magnitude, and on an axis that hit no edge the new velocity component equals the heading's |
| LiveMap.SteeringMoves | src/components/LiveMap.tsx:92-107 | when steering, an axis whose tentative position stays within the edges ends at the old position plus the heading |
| LiveMap.SteppingExample | src/components/LiveMap.tsx:70-107 | a marker at (100, 100) bound for the landmark at (420, 100) ends at (101.2, 100) with velocity (1.2, 0) |
| LiveMap.SteeringReflects | src/components/LiveMap.tsx:92-99 | when steering, a tentative position beyond an edge lands on that edge with the velocity pointing inward |
| LiveMap.StepMarker | src/components/LiveMap.tsx:70-107 | the step, computed with local variables reassigned through the arrival test and the edge checks, equals the specification `Stepped` |
| LiveMap.Steer | src/components/LiveMap.tsx:79-107 | beyond the arrival radius, the velocity set toward the target and the two bounced axes, computed in sequence, equal the steering case of `Stepped` |
| LiveMap.BounceAxis | src/components/LiveMap.tsx:96-99 | the two sequential edge checks of one axis compute `Bounce` |
| LiveMap.LiveMapState.constructor | src/components/LiveMap.tsx:34 | the map starts with no markers |
| LiveMap.LiveMapState.ResetMarkers | src/components/LiveMap.tsx:52-63 | the marker list becomes the initial markers of the shuttles |
| LiveMap.LiveMapState.Tick | src/components/LiveMap.tsx:68-108 | every marker is replaced by its step, in order; length, ids and colours are kept, all targets stay landmark indices, and every marker ends inside the map bounds |
| LiveMap.GetColorHex | src/components/LiveMap.tsx:175-187 | each of the eight colour names gives a seven-character `#` hex code other than the fallback; every other name gives `#999` |
| LiveMap.RenderColor | src/components/LiveMap.tsx:146-156 | the canvas fill of each of the eight colour names is a seven-character `#` code other than the fallback; every other name is filled `#999` |
| LiveMap.ColorTablesAgree | src/components/LiveMap.tsx:146-156 | the canvas colour lookup agrees with `getColorHex` (lines 175-187) on every name |
| LiveMap.IdLabel | src/components/LiveMap.tsx:170 | the label has at least three characters, and is all digits exactly when the id is non-negative |
| LiveMap.IdLabelDigits | src/components/LiveMap.tsx:170 | the label of a non-negative id is all digits, denotes the id, has length 3 for ids below 1000, and is `String(id)` itself when that already has 3 or more digits |
| AdminShuttleManagement.Matches | src/AdminShuttleManagement.tsx:54-57 | a shuttle matches exactly when the lower-cased term occurs at some position of its lower-cased driver or of its lower-cased plate |
| AdminShuttleManagement.FilterShuttles | src/AdminShuttleManagement.tsx:54-57 | a shuttle is listed iff it is in the list and its lower-cased driver or plate contains the lower-cased term; never more shuttles than the list |
| AdminShuttleManagement.FilterAppend | src/AdminShuttleManagement.tsx:54-57 | filtering keeps list order |
| AdminShuttleManagement.FilterCaseInsensitive | src/AdminShuttleManagement.tsx:54-57 | the search ignores case: two terms that lower-case alike list exactly the same shuttles |
| AdminShuttleManagement.FilterEmptyTerm | src/AdminShuttleManagement.tsx:54-57 | an empty search term lists every shuttle |
| AdminShuttleManagement.ToggleStatus | src/AdminShuttleManagement.tsx:211 | status flips exactly for the shuttles with the id; every other field and every other shuttle is unchanged |
| AdminShuttleManagement.ToggleTwice | src/AdminShuttleManagement.tsx:211 | toggling the same id twice restores the list |
| AdminShuttleManagement.AppendRoute | src/AdminShuttleManagement.tsx:117-121 | the created route goes to the end of the routes of the shuttles with the id, each gaining exactly one route; everything else is unchanged |
| AdminShuttleManagement.CountId | src/AdminShuttleManagement.tsx:118 | counts the shuttles a by-id update touches; zero exactly when no shuttle has the id |
| AdminShuttleManagement.AppendRouteTotal | src/AdminShuttleManagement.tsx:117-121 | adding a route adds one route to the list's total per shuttle with the id |
| AdminShuttleManagement.ApplyAdvance | src/AdminShuttleManagement.tsx:139-147 | the shuttles with the id take route index and next route from the response; routes, other fields and other shuttles are unchanged |
| AdminShuttleManagement.ApplyAdvanceIdempotent | src/AdminShuttleManagement.tsx:139-147 | applying the same response twice is the same as once |
| AdminShuttleManagement.NewItem | src/AdminShuttleManagement.tsx:78-89 | the added shuttle is active with no routes, index 0 and no next route |
| AdminShuttleManagement.NewItemAgreesWithTransform | src/AdminShuttleManagement.tsx:78-89 | the added shuttle is the loading transform of the created vehicle, except for the fresh-shuttle state |
| AdminShuttleManagement.BuildVehicleRequest | src/AdminShuttleManagement.tsx:67-73 | empty type and model default to `car` and `Shuttle`, an empty colour becomes one of the eight colours of line 28, other fields are copied |
| AdminShuttleManagement.CanAddShuttle | src/AdminShuttleManagement.tsx:60 | the add-shuttle guard: both driver and plate are non-empty |
| AdminShuttleManagement.CanAddRoute | src/AdminShuttleManagement.tsx:102 | the add-route guard: a selected id other than 0, non-empty origin and destination, positive distance and positive time |
| AdminShuttleManagement.EmptyFormsRejected | src/AdminShuttleManagement.tsx:102 | the empty route form, the one the page starts with and resets to after a route is added, fails the route guard for any selection; the starting add-shuttle form fails the shuttle guard |
| AdminShuttleManagement.ShuttleZeroGetsNoRoute | src/AdminShuttleManagement.tsx:102 | a selected id of 0 is falsy, so the add-route guard rejects it |
| AdminShuttleManagement.AdminPage.constructor | src/AdminShuttleManagement.tsx:12-52 | the page starts with an empty search, closed dialogs, no selection, empty forms and not loading |
| AdminShuttleManagement.AdminPage.FilteredShuttles | src/AdminShuttleManagement.tsx:54-57 | the table rows are exactly the shared shuttles that match the page's search term, never more than the list |
| AdminShuttleManagement.AdminPage.ToggleClicked | src/AdminShuttleManagement.tsx:209-212 | the status button replaces the shared list by its toggle |
| AdminShuttleManagement.AdminPage.RouteClicked | src/AdminShuttleManagement.tsx:227-230 | the route button selects the shuttle and opens the route dialog |
| AdminShuttleManagement.AdminPage.CancelRoute | src/AdminShuttleManagement.tsx:369-373 | cancelling closes the route dialog, clears the selection and empties the form |
| AdminShuttleManagement.AdminPage.HandleAddShuttle | src/AdminShuttleManagement.tsx:59-99 | without driver or plate: alert and no change at all; otherwise the request with defaults is sent; on success the new item is appended at the end, the form resets and the dialog closes; on failure the list is unchanged and the error alert is shown; loading is false afterwards |
| AdminShuttleManagement.AdminPage.HandleAddRoute | src/AdminShuttleManagement.tsx:101-131 | a failing guard alerts and changes nothing; otherwise the selected id and form are sent; on success the route is appended by id and form, dialog and selection reset; on failure the list is unchanged with the error alert; loading is false afterwards |
| AdminShuttleManagement.AdminPage.HandleAdvanceRoute | src/AdminShuttleManagement.tsx:133-153 | on success the response is applied by id; on failure the list is unchanged with the error alert; loading is false afterwards |

## Left out

- Canvas drawing, the legend and badge markup, and every other rendering: they draw, and the only logic in them (the colour lookup and the label) is modelled.
- Map image loading: asynchronous network I/O with a callback.
- `setInterval` and `clearInterval`: one tick is modelled. `LiveMapState.Tick` requires only a valid state, so its guarantees hold after any number of ticks.
- IEEE floating point: coordinates, distances and the division in the heading are exact reals; `Math.sqrt` is a parameter assumed to be the exact root.
- `NaN` from `parseFloat`/`parseInt` in the route form: the form holds a real distance and an integer time.
- The distribution of `Math.random()`: only its range `[0,1)` is modelled.
- Interleaving across `await`: each handler runs to completion with the API result given up front, so the updater form of `setShuttles` reads the list as it stood at the call.
- `alert` and `console.error`: handlers return the alert text instead of showing it.
- Case mapping beyond ASCII: `toLowerCase` is modelled on `A`..`Z` only.
- JavaScript object-key lookup in the colour maps: names such as `constructor` or `toString`, which JavaScript would find on the object's prototype, are treated as ordinary unknown names.
- The advance-route response: only its route index and next route are read, and the index is taken to be an integer.
- LiveMap.StepMarker: the steering branch sits in `Steer` and the edge checks of each axis in `BounceAxis`. The tentative y position is computed after the x edge checks rather than before them as in the source; the x checks do not read it, so the result is the same.
- LiveMap.GetColorHex: states that the eight names give distinct-from-fallback seven-character codes rather than listing each code; the codes themselves are in `LegendColorMap`.
- LiveMap.RenderColor: likewise states that the eight names give distinct-from-fallback seven-character codes rather than listing each code; the codes are in `RenderColorMap`, and `ColorTablesAgree` ties them to `getColorHex`.
- LiveMap.IdLabelDigits: stated for non-negative ids; a negative id gets a `-` sign before the padding, which the label function models but no lemma describes.
- `src/services/apiService.ts` is not part of this model: it wraps `fetch` and token storage.
- `src/Login.tsx`, `src/AdminDashboard.tsx` and `src/UserDashboard.tsx` are not part of this model: they are views and navigation.
- The backend (`backend_api/`) and `test-api.js` are not part of this model: they are server framework configuration and a network test script.
