# Golf hole-map session model

A Dafny model of the hole-map screen of a golf app. The screen shows one hole:
satellite map, tee and green markers, an optional draggable target (aim
point), a dashed tee → target → green line, two distance bubbles, and
chevrons to step between holes. It gets its data from a mock course service.

What is modelled:

- **GolfData** (`golf_data.dfy`): the course service. A constant two-hole
  table. `GetHoleInfo` looks a hole up and falls back to hole 1.
  `GetHoleState` never has a stored target. `SaveTargetPosition` discards its
  arguments. The Promises are modelled by the values they resolve to.
- **HoleView** (`hole_view.dfy`): the values the screen derives from its
  state. These are the initial map region, the polyline points and the list
  the camera is fitted to, the target and approach distances, and the bubble
  labels. The two point lists are built step by step in the source (`push`,
  `splice`), so they are methods. Both are proved equal to one reference
  function, `PlannedRoute`.
- **Session** (`session.dfy`): the screen's three state fields (`activeHole`,
  `holeInfo`, `targetPosition`). The class `HoleMapSession` has a method per
  handler: `loadHole`, the mount effect, long press, marker drag end, and
  hole change. Each method returns the save request, if any, that the screen's
  save effect issues after it. Each method is proved to perform one pure
  transition function. Lemmas about sequences of gestures are proved on those
  functions. The main results: the session invariant is kept, a hole change
  never goes below hole 1, and there is no last hole. Stepping past hole 2
  shows hole 1's data while hole 3 is active.
- **JsMath** and **Decimal** (`js_math.dfy`, `decimal.dfy`) hold
  `Math.abs`/`Math.max`/`Math.round` over reals and how a template literal
  prints an integer. The label proofs rely on them.

The geodesic distance `distanceInYards` (src/utils/distance.ts) is a
parameter `dist: (LatLng, LatLng) -> real` of the derivations. So every
property holds whatever that function computes. What is proved is which
points are passed to it and when.

Two details of the code that the model keeps:
- The approach distance is null until a hole is loaded
  (src/screens/HoleMapScreen.tsx:111-113).
- Unknown hole numbers fall back to hole 1 inside the course service
  (src/services/golfDataService.ts:45-47).

## Model

| member | source | states |
|---|---|---|
| `GolfData.MockCourseIsKeyedByHoleNumber` | src/services/golfDataService.ts:17-36 | the table holds holes 1 and 2, each filed under its own hole number |
| `GolfData.GetHoleInfo` | src/services/golfDataService.ts:38-50 | the table entry when the hole is in the table, otherwise hole 1's entry; the result's hole number is 1 or 2, and it equals the requested number iff that number is in the table |
| `GolfData.GetHoleInfoIgnoresCourse` | src/services/golfDataService.ts:42 | the course identifier has no influence on the result |
| `GolfData.GetHoleState` | src/services/golfDataService.ts:52-60 | no target is stored, for every round and hole |
| `GolfData.SaveTargetPositionIsUnobservable` | src/services/golfDataService.ts:62-72 | saving returns nothing and a later read of any hole, including the one saved, still has no target |
| `JsMath.Abs` | src/screens/HoleMapScreen.tsx:50-51 | `Math.abs` is non-negative and is x or −x |
| `JsMath.Max` | src/screens/HoleMapScreen.tsx:50-51 | `Math.max` is at least both arguments and equals one of them |
| `JsMath.RoundIsUnique` | src/screens/HoleMapScreen.tsx:269 | exactly one integer lies in Round's window, so Round's contract fixes its value |
| `JsMath.Round` | src/screens/HoleMapScreen.tsx:269 | `Math.round` gives the integer within (x − ½, x + ½], so ties go up |
| `Decimal.NatToString` | src/screens/HoleMapScreen.tsx:270 | the printed natural number is a non-empty digit string with no leading zero, and it is "0" exactly for zero |
| `Decimal.NatToStringRoundTrip` | src/screens/HoleMapScreen.tsx:270 | the digits printed for a natural number have that number as their decimal value (proved by induction) |
| `Decimal.IntToString` | src/screens/HoleMapScreen.tsx:270 | the printed integer starts with '-' iff it is negative, followed by digits only; a non-negative integer prints as digits only |
| `Decimal.IntToStringRoundTrip` | src/screens/HoleMapScreen.tsx:270 | reading back the printed integer (sign, then digits) gives the integer |
| `Decimal.IntToStringInjective` | src/screens/HoleMapScreen.tsx:270 | different integers print differently |
| `HoleView.ComputeInitialRegion` | src/screens/HoleMapScreen.tsx:47-59 | centre is equidistant from tee and green on each axis; each span is the larger of 0.002 and 1.6 × the tee–green separation; tee and green both lie inside the region |
| `HoleView.InitialRegionIsSymmetric` | src/screens/HoleMapScreen.tsx:47-59 | swapping tee and green gives the same region |
| `HoleView.InitialRegion` | src/screens/HoleMapScreen.tsx:78-84 | a region exists iff hole data is loaded, and then it is the tee/green region |
| `HoleView.PlannedRoute` | src/screens/HoleMapScreen.tsx:86-100 | empty without hole data; otherwise starts at the tee, ends at the green, has 3 points with the target in the middle iff a target is set, else 2 |
| `HoleView.LineCoordinates` | src/screens/HoleMapScreen.tsx:86-100 | the points pushed for the polyline are the planned route |
| `HoleView.PolylineDrawnIffHoleLoaded` | src/screens/HoleMapScreen.tsx:313 | the polyline has the two points it needs to be drawn exactly when a hole is loaded |
| `HoleView.FitCoordinates` | src/screens/HoleMapScreen.tsx:147-159 | a fit list exists iff the map is mounted and a hole is loaded, and it is the planned route (same order as the polyline); the length guard is never hit |
| `HoleView.TargetDistance` | src/screens/HoleMapScreen.tsx:102-108 | absent iff hole data or target is absent; otherwise the distance from tee to target |
| `HoleView.ApproachDistance` | src/screens/HoleMapScreen.tsx:110-120 | absent iff no hole data; the distance target→green when a target is set, tee→green otherwise |
| `HoleView.DistancesAreRouteLegs` | src/screens/HoleMapScreen.tsx:86-120 | the approach distance measures the last leg of the drawn route, the target distance its first leg |
| `HoleView.PlaysLike` | src/screens/HoleMapScreen.tsx:269 | the plays-like yardage is within half a yard of 95% of the distance |
| `HoleView.TargetSecondaryLabel` | src/screens/HoleMapScreen.tsx:264-271 | the prompt "Long press to set a target" without a target distance, otherwise "Plays like " + the plays-like yardage + "y 2W" |
| `HoleView.PlaysLikeLabelReadsBack` | src/screens/HoleMapScreen.tsx:269-270 | the plays-like label has the fixed prefix and suffix, the number between them reads back as the plays-like yardage, and it never equals the prompt |
| `HoleView.PlaysLikeLabelDeterminesYards` | src/screens/HoleMapScreen.tsx:269-270 | equal plays-like labels mean equal plays-like yardages |
| `HoleView.GreenSecondaryLabel` | src/screens/HoleMapScreen.tsx:349 | "To green" iff a target is set, "Tee to green" iff none is |
| `HoleView.BubbleLabelsAgree` | src/screens/HoleMapScreen.tsx:264-271 | with a hole loaded, the target bubble shows the prompt exactly when the green bubble says "Tee to green" |
| `Session.Initial` | src/screens/HoleMapScreen.tsx:67-69 | the first state: the route's hole, no data, no target |
| `Session.Loaded` | src/screens/HoleMapScreen.tsx:122-133 | loading hole h makes h active, the lookup for h the hole data, and the stored target (always none) the target; the result is consistent |
| `Session.TargetPlaced` | src/screens/HoleMapScreen.tsx:215-222 | a placed target replaces only the target; hole and data are kept |
| `Session.NextHole` | src/screens/HoleMapScreen.tsx:251 | the next hole is `max(1, active + direction)`: at least 1 and at least active + direction, and equal to one of them |
| `Session.HoleChanged` | src/screens/HoleMapScreen.tsx:249-258 | the active hole becomes the next hole; the state is unchanged iff the next hole is the active one, and otherwise it is the loaded next hole |
| `Session.SaveEffect` | src/screens/HoleMapScreen.tsx:139-145 | a save is issued iff a target is set, and it is for the current round, the active hole and that target |
| `Session.Consistent` | src/screens/HoleMapScreen.tsx:122-133 | in a consistent state the shown data is a table entry (hole 1 or 2), and a set target means the map region exists |
| `Session.Enabled` | src/screens/HoleMapScreen.tsx:275-308 | a long press is possible iff the map region exists (the map is rendered), a drag end iff a target is set (the marker is rendered), a chevron press always |
| `Session.Step` | src/screens/HoleMapScreen.tsx:284-308 | a long press or drag end changes only the target, to the event point; a chevron press makes the next hole active; loaded data stays loaded; a change of hole leaves data loaded and no target |
| `Session.Admissible` | src/screens/HoleMapScreen.tsx:356-360 | any sequence of chevron presses is possible, and a possible sequence starts with a possible gesture |
| `Session.Run` | src/screens/HoleMapScreen.tsx:122-258 | after any possible sequence of gestures, loaded data stays loaded, and a hole other than the starting one is only reached with its data loaded |
| `Session.StepPreservesConsistent` | src/screens/HoleMapScreen.tsx:122-133 | every possible gesture keeps the hole data that of the active hole and keeps any target on a loaded hole |
| `Session.RunPreservesConsistent` | src/screens/HoleMapScreen.tsx:122-258 | the session invariant holds after any sequence of possible gestures |
| `Session.RunNeverDropsBelowFirstHole` | src/screens/HoleMapScreen.tsx:249-258 | starting on hole 1 or higher, no sequence of gestures reaches a hole below 1 |
| `Session.ForwardHasNoLastHole` | src/screens/HoleMapScreen.tsx:251 | n forward presses from hole h (h ≥ 0) reach hole h + n: there is no upper bound |
| `Session.BackStopsAtFirstHole` | src/screens/HoleMapScreen.tsx:251-254 | n back presses from hole h (h ≥ 1) reach hole max(1, h − n) |
| `Session.BackFromFirstHoleIsNoOp` | src/screens/HoleMapScreen.tsx:252-254 | going back from hole 1 leaves the whole state unchanged: no reload and the target is kept |
| `Session.ShownHoleMatchesActiveHole` | src/services/golfDataService.ts:44-49 | in a consistent state the shown data has the active hole's number iff that hole is in the table, and otherwise is hole 1's data |
| `Session.PastLastHoleShowsFirstHole` | src/screens/HoleMapScreen.tsx:249-258 | forward from hole 2 makes hole 3 active while the data shown is hole 1's |
| `Session.LoadedHoleMeasuresTeeToGreen` | src/screens/HoleMapScreen.tsx:122-133 | right after any load: no target distance, the prompt label, the approach distance equal to tee→green of the looked-up hole, "Tee to green", and no save |
| `Session.HoleMapSession.constructor` | src/screens/HoleMapScreen.tsx:67-69 | the session starts in the initial state of the route's hole and is valid |
| `Session.HoleMapSession.LoadHole` | src/screens/HoleMapScreen.tsx:122-133 | the fields become the loaded state of the hole; the save effect that follows issues nothing |
| `Session.HoleMapSession.Mount` | src/screens/HoleMapScreen.tsx:135-137 | the mount effect loads the route's hole |
| `Session.HoleMapSession.HandleLongPress` | src/screens/HoleMapScreen.tsx:215-222 | with the map on screen, the pressed point becomes the target, nothing else changes, and a save of it for the active hole is issued |
| `Session.HoleMapSession.HandleMarkerDragEnd` | src/screens/HoleMapScreen.tsx:304-308 | with the target marker on screen, the drop point becomes the target, nothing else changes, and a save of it is issued |
| `Session.HoleMapSession.HandleHoleChange` | src/screens/HoleMapScreen.tsx:249-258 | the fields perform the hole-change transition and the active hole ends at least 1; no save is issued |

## Left out

- `distanceInYards` (src/utils/distance.ts:8-22): the Haversine formula is floating-point trigonometry. It is the parameter `dist`. Its own properties (zero for equal points, symmetry, non-negativity, the one-degree reference value) are not proved.
- Floating point: coordinates, the 1.6 and 0.95 factors and `Math.round` work over exact reals, not IEEE doubles.
- Decimal: JavaScript prints numbers of magnitude 10^21 or more in exponent form. The model always prints plain digits.
- Hole numbers are integers. A JavaScript `number` could also be fractional or NaN. The route's hole number is not validated by the source, and it is not validated here either.
- Map SDK calls are not modelled: `fitToCoordinates` itself (only the list passed to it is), the `pointForCoordinate` bubble positions, and the camera zoom (`getCamera`/`animateCamera`). They are asynchronous foreign calls.
- React scheduling is not modelled: the order of effects, the `hasFitToCoords` ref, `mapLayout`, and `await` interleavings. If two `loadHole` calls overlap, the model does not capture their order. Each handler runs to completion atomically here. The save effect is modelled as running once after each handler that changes the target or the active hole. A hole change that stays on the same hole changes no state, so the effect does not run.
- `toMapCoordinate` only renames `lat`/`lng` to `latitude`/`longitude`. Both kinds of point are one `LatLng` here.
- The bubbles' primary values (`targetDistance ?? 0`, `approachDistance ?? 0`), the header's props and `handleStartRound` are not modelled. They are presentation and logging. So are the presentation components (HoleHeader, ToolsPanel, DistanceBubble) and the style sheet.
