# Cardio workout log — a Dafny model

The cardio app is a browser page. The user clicks a point on a map, fills in a
form (running or cycling, distance in km, duration in minutes, and either cadence
or climb), and the page records a workout. This project models the part of
`script.js` that decides whether the form becomes a workout, builds the workout
record, appends it to the app's list, and finds a workout by id when its sidebar
card is clicked.

- `numbers.dfy` (module `JsNumbers`): what a form field gives after JavaScript's
  unary `+`. A finite value is an exact `real`. NaN, +Infinity and -Infinity are
  markers, so `Number.isFinite(n)` and `n > 0` keep their JavaScript meaning.
- `workouts.dfy` (module `Workouts`): the `Workout`/`Running`/`Cycling` classes
  as one datatype with two constructors that share the base fields. It has the
  constructors `NewRunning` and `NewCycling`, the description, and `click()`.
- `validation.dfy` (module `Validation`): the `areNumbers`/`arePositiveNumber`
  helpers and the guard each kind applies.
- `app.dfy` (module `Tracker`): the `App` class. It holds `#workouts` as a
  `seq<Workout>` and `#mapEvent` as an optional location. Its methods are
  `_showForm`, `_newWorkout` and `_moveToWorkout`, plus the id lookup.
- `wrappers.dfy` (module `Wrappers`): `Option`.

Three behaviours of the code a reader might not expect:

- A ride's climb is checked only for finiteness, never for sign (script.js:173-174).
- `_moveToWorkout` re-centres the map but never calls `click()`, so no click
  count changes there (script.js:262-277).
- A stored list is taken as it is when the app starts, without validation
  (script.js:284-286).

## Model

| member | source | states |
|---|---|---|
| `Validation.AreNumbers` | script.js:135-136 | true exactly when every value is finite (`Number.isFinite`) |
| `Validation.ArePositive` | script.js:138 | true exactly when every value compares `> 0`; NaN and -Infinity fail, +Infinity passes |
| `Validation.RunningAcceptedIff` | script.js:150-162 | a run is accepted iff distance, duration and cadence are all finite and all > 0 |
| `Validation.CyclingAcceptedIff` | script.js:166-177 | a ride is accepted iff distance, duration and climb are finite and distance and duration are > 0; the climb's sign is not checked |
| `Validation.NonPositiveMetricAcceptedOnlyForCycling` | script.js:153-177 | for any finite positive distance and duration, a finite third value <= 0 is accepted for a ride and rejected for a run |
| `Validation.NonFiniteRejected` | script.js:135-138 | a non-finite value in any of the three fields is rejected for either kind, even +Infinity, which compares > 0 |
| `Workouts.Description` | script.js:22-29 | starts with "Пробежка" for a run and "Велотренировка" for a ride, and ends with the date text |
| `Workouts.DescriptionInjective` | script.js:22-29 | two equal descriptions have the same kind and the same date |
| `Workouts.NewRunning` | script.js:35-48 | keeps the given id, coordinates, distance, duration and cadence; the click count is 0; pace × distance = 60 × duration; the description is the running one |
| `Workouts.NewCycling` | script.js:50-62 | keeps the given id, coordinates, distance, duration and climb; the click count is 0; speed × duration = distance; the description is the cycling one |
| `Workouts.Click` | script.js:31-33 | the click count rises by exactly one; every other field, the derived metric included, is unchanged |
| `Workouts.ClicksKeepRecord` | script.js:31-33 | n clicks raise the count by exactly n and keep a well-formed record well-formed |
| `Workouts.MetricPositive` | script.js:45-62 | on a record with positive distance and duration, pace and speed are positive |
| `Tracker.FindIndex` | script.js:268-270 | gives the first position whose id matches, or nothing exactly when no workout has that id |
| `Tracker.FindIndexAppend` | script.js:180 | after appending, every lookup that succeeded gives the same position; a failed one finds the new workout if the id is its id |
| `Tracker.App.constructor` | script.js:281-290 | the list is the stored list, or empty when nothing is stored; no map location is pending and the map does not exist yet |
| `Tracker.App.LoadMap` | script.js:94-115 | the map now exists; the list and the pending location are unchanged |
| `Tracker.App.ShowForm` | script.js:116-120 | remembers the clicked location; the list is unchanged; needs the map, whose click handler is the only caller |
| `Tracker.App.NewWorkout` | script.js:134-180 | adds a workout iff the input is accepted; on rejection the list is unchanged; on acceptance the list grows by exactly the new record, which is built at the clicked location and is well-formed; earlier lookups keep their results and a new id finds the new record |
| `Tracker.App.MoveToWorkout` | script.js:262-277 | a click outside any card does nothing; otherwise the map, which must exist, is centred at zoom 13 on the first workout with the card's id |

## Left out

- DOM work (the form's show/hide/clear, field toggling, HTML cards) is UI and is not modelled.
- Leaflet calls (map creation, markers, popups, animation options) are calls into an external library. `MoveToWorkout` returns the centre and zoom it would pass to `setView`.
- Geolocation (`_getPosition`) is asynchronous browser I/O and is not modelled; `LoadMap` stands for its success callback and records only that the map now exists.
- `localStorage` and JSON: writing the list after each new workout and `reset()` are I/O. Only the start-up reading is modelled, as the constructor's `stored` argument, where null gives an empty list.
- The id from `Math.random().toFixed(5)` and the date are inputs: `id` is a string parameter, and the locale-formatted date is a `date` text parameter. Ids are not assumed unique, which is why lookups return the first match.
- The `date` field itself is not kept in the record; it appears only through the description. `toFixed(2)` display rounding is not modelled.
- Parsing the field text into a number (`+input.value`) is not modelled; the fields arrive as `Num` values. An empty field gives `Finite(0.0)`.
- IEEE-754 rounding: pace and speed are exact reals.
- A `type` other than 'running' or 'cycling' would push `undefined` onto the list. `Kind` has only the two values.
- `Workouts.NewRunning`: requires a non-zero distance, and `Workouts.NewCycling` a non-zero duration. A zero there gives Infinity or NaN in JavaScript, which reals cannot hold; the only caller validates positivity first.
- `Tracker.App.MoveToWorkout`: requires that a clicked card's id is in the list, because the source dereferences the `find` result unguarded and would throw otherwise. It also requires that the map exists: stored workouts are drawn as cards at start-up (script.js:287-289), before geolocation answers, and `#map` stays undefined until `_loadMap` runs (script.js:100), for good if geolocation is denied or missing (script.js:84-90). A card click in that window throws at `this.#map.setView` (script.js:271); the model does not capture that exception, only the requirement that excludes it.
- `Tracker.App.NewWorkout`: requires that a map location is pending, because the source reads `#mapEvent.latlng` unguarded; the form is only shown after a map click.
- `click()` is a function returning the updated record, since records are values in the list; object identity and aliasing are not modelled.
