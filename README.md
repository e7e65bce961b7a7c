# Space — a verified model of the app's logic

Space is an iOS app that has four parts:

- a live map of the International Space Station (ISS) with an augmented-reality (AR) marker;
- a daily page with NASA's picture of the day, the latest Mars weather and the next rocket launches;
- a list of the planets visible from the user's position;
- a compass that points at a chosen body.

This project models, in Dafny, the parts of the app that decide something:

- the projection of the ISS into AR scene coordinates;
- the start/stop guard of the ISS polling task and what one polling round does to the state;
- the selection of Mars sols from the weather response;
- how the daily page's `load` combines three fetch results into state and one error message;
- the sorting of visible bodies by altitude, and the list states and row texts of the sky screen;
- the compass rotations and the classification of its ticks.

There is one module per source file:

| module | file | form |
|---|---|---|
| `Common` | shared vocabulary: `Option`, `Result`, `joined`, `prefix`, coordinates, a cancellable task handle | |
| `ArProjection` | `Space/Model/ISSARCalculator.swift` | functions |
| `IssTracker` | `Space/ISSMapViewModel.swift` | a class for the view model, functions for its computed texts |
| `IssArTracker` | `Space/ViewModel/ISSMapViewModel.swift` | a class, plus a class for the location-manager requests |
| `Compass` | `Space/View/CompassView.swift` | functions |
| `MarsWeather` | `Space/Model/MarsWeatherState.swift` | a method with a loop for decoding, functions for `days` and `latest` |
| `Daily` | `Space/ViewModel/DailyViewModel.swift` | a class whose `Load` builds the error list step by step |
| `Planets` | `Space/ViewModel/PlanetsViewModel.swift` | a class, and a verified insertion sort as the reference ordering |
| `PlanetsScreen` | `Space/View/PlanetsView.swift` | `Refresh` and `DetailLine` as methods, the rest as functions |

## How outside behaviour is represented

- **Service calls.** `fetchISS`, `fetchMarsWeather`, `fetchNextLaunches`, `fetchAPOD` and `fetchVisibleBodies` are represented by their outcomes. An outcome is a `Result` value, either a success with a value or a failure with the error's `localizedDescription`. The planets service is a function of latitude and longitude.
- **Trigonometry and distance.** `sin`, `cos`, `atan2` and `CLLocation.distance(from:)` are fields of a `Numerics` value. A lemma that relies on a fact about them says so in its `requires`: sin² + cos² = 1, sin 0 = 0 and cos 0 = 1, atan2(0, 0) = 0, or that the distance from a point to itself is 0.
- **Formatting and parsing.** `String(format:)` number rendering, `Date.formatted` and the `ISO8601DateFormatter` parsers are function parameters. `Double.rounded()` and the decimal rendering of an `Int` are modelled exactly.
- **Swift's `%`.** It truncates toward zero, while Dafny's `%` is Euclidean. The source only compares remainders with zero, and both operators agree on that, so Dafny's `%` is used as is.
- **A task.** A task is a `PollingTask` object with a `cancelled` flag. "A new task" is stated as `fresh(pollingTask)`.

## Model

| member | source | states |
|---|---|---|
| Common.Join | Space/ViewModel/DailyViewModel.swift:85 | joining no parts gives the empty string; joining one part gives that part alone |
| Common.Prefix | Space/ViewModel/DailyViewModel.swift:72 | the first min(n, count) elements, unchanged and in order |
| ArProjection.BearingRadiansToItself | Space/Model/ISSARCalculator.swift:28-31 | from a point to itself both bearing components are 0, so the bearing is atan2(0, 0) |
| ArProjection.ProjectOnSphere | Space/Model/ISSARCalculator.swift:40-44 | if sin² + cos² = 1, then x² + y² + z² = radius² |
| ArProjection.ProjectLinearInRadius | Space/Model/ISSARCalculator.swift:40-44 | scaling the radius by k scales every component by k |
| ArProjection.ProjectAboveHorizon | Space/Model/ISSARCalculator.swift:40-43 | with a positive radius, y ≥ 0 exactly when sin(elevation) ≥ 0 |
| ArProjection.ProjectStraightAhead | Space/Model/ISSARCalculator.swift:42-44 | bearing 0 and elevation 0 give (0, 0, −radius), straight ahead on the horizon |
| ArProjection.CalculatePosition | Space/Model/ISSARCalculator.swift:14-47 | the position lies on the sphere of radius 100; it is at or above the camera's horizon exactly when sin(elevation) ≥ 0 |
| ArProjection.CalculatePositionComponents | Space/Model/ISSARCalculator.swift:40-44 | x = 100·cos e·sin b, y = 100·sin e, z = −100·cos e·cos b for the computed bearing b and elevation e |
| ArProjection.CalculatePositionOverhead | Space/Model/ISSARCalculator.swift:22-44 | the ISS at altitude 0 over the observer is put at (0, 0, −100): neither atan2(0, 0) is special-cased |
| IssTracker.IssMapViewModel.constructor | Space/ISSMapViewModel.swift:17-22 | no task, no state and no error; following the ISS starts on |
| IssTracker.IssMapViewModel.Start | Space/ISSMapViewModel.swift:28-45 | keeps an existing task; creates a fresh task only when there is none; changes nothing else |
| IssTracker.IssMapViewModel.Stop | Space/ISSMapViewModel.swift:47-50 | cancels the held task, if any, and forgets it; changes nothing else |
| IssTracker.IssMapViewModel.PollIteration | Space/ISSMapViewModel.swift:33-40 | a success stores the state and clears the error; a failure records the error and keeps the last state; the task invariant is kept |
| IssTracker.IssMapViewModel.CurrentCoordinate | Space/ISSMapViewModel.swift:52-55 | absent exactly when there is no state; otherwise the state's latitude and longitude |
| IssTracker.IssMapViewModel.AltitudeText | Space/ISSMapViewModel.swift:57-60 | "—" exactly when there is no state; otherwise the whole-number altitude and " km" |
| IssTracker.IssMapViewModel.VelocityText | Space/ISSMapViewModel.swift:62-65 | "—" exactly when there is no state; otherwise the whole-number velocity and " km/h" |
| IssTracker.IssMapViewModel.VisibilityText | Space/ISSMapViewModel.swift:67-69 | the reported visibility when a state with one exists, "—" otherwise |
| IssTracker.IssMapViewModel.TimestampText | Space/ISSMapViewModel.swift:71-75 | "—" without a state; otherwise the formatted timestamp; if the date rendering never yields "—", then "—" exactly when there is no state |
| IssTracker.PollingLifecycle | Space/ISSMapViewModel.swift:28-50 | start, start, stop, start: the second start keeps the task, stop cancels it, and the last start creates a fresh, different task |
| IssArTracker.IssMapViewModel.constructor | Space/ViewModel/ISSMapViewModel.swift:17-24 | no task, location, state or error; no location request yet; following the ISS starts on |
| IssArTracker.IssMapViewModel.Start | Space/ViewModel/ISSMapViewModel.swift:26-46 | always requests authorisation and location updates once more; creates a fresh task only when there is none |
| IssArTracker.IssMapViewModel.Stop | Space/ViewModel/ISSMapViewModel.swift:48-52 | stops location updates, cancels the held task and forgets it |
| IssArTracker.IssMapViewModel.PollIteration | Space/ViewModel/ISSMapViewModel.swift:34-41 | a success stores the state and clears the error; a failure records the error and keeps the last state; the task invariant is kept |
| IssArTracker.IssMapViewModel.DidUpdateLocations | Space/ViewModel/ISSMapViewModel.swift:112-114 | the user location becomes the last reported location; with no locations it becomes absent; the task invariant is kept |
| IssArTracker.IssMapViewModel.DidFailWithError | Space/ViewModel/ISSMapViewModel.swift:116-118 | the error becomes "GPS: " followed by the description; the task invariant is kept |
| IssArTracker.IssMapViewModel.GetArPosition | Space/ViewModel/ISSMapViewModel.swift:54-85 | exactly (0, 0, −10) when the state or the user location is missing; otherwise half of the radius-100 position, which lies on the sphere of radius 50 |
| IssArTracker.IssMapViewModel.CurrentCoordinate | Space/ViewModel/ISSMapViewModel.swift:87-90 | absent exactly when there is no state; otherwise the state's latitude and longitude |
| IssArTracker.IssMapViewModel.AltitudeText | Space/ViewModel/ISSMapViewModel.swift:92-95 | "—" exactly when there is no state; otherwise the whole-number altitude and " km" |
| IssArTracker.IssMapViewModel.VelocityText | Space/ViewModel/ISSMapViewModel.swift:97-100 | "—" exactly when there is no state; otherwise the whole-number velocity and " km/h" |
| IssArTracker.IssMapViewModel.TimestampText | Space/ViewModel/ISSMapViewModel.swift:102-106 | "—" without a state; otherwise the formatted timestamp; if the date rendering never yields "—", then "—" exactly when there is no state |
| IssArTracker.PollingLifecycle | Space/ViewModel/ISSMapViewModel.swift:26-52 | start, start, stop, start: one task is kept across the repeated start, stop cancels it, the last start creates a fresh, different task, and location updates are requested three times and left running |
| Compass.RoseRotation | Space/View/CompassView.swift:20 | the rose turns by −heading, or not at all without a heading |
| Compass.NeedleRotation | Space/View/CompassView.swift:26 | needle rotation minus rose rotation is always the target azimuth; without a heading the needle rotation is the target azimuth |
| Compass.RotationDegrees | Space/View/CompassView.swift:39-42 | the exact negation of the needle's rotation |
| Compass.TickStyleFor | Space/View/CompassView.swift:98-105 | multiples of 90 get length 16 and width 3; other multiples of 45 get 11 and 1; the rest get 6 and 1; a tick is labelled exactly at multiples of 45, which are exactly the ticks longer than 6 |
| Compass.LabelFor | Space/View/CompassView.swift:79-91 | a label exists exactly for the multiples of 45 in [0, 360) |
| Compass.Stride | Space/View/CompassView.swift:118 | element i is lo + i·step and below hi, and the next step would reach hi |
| Compass.GridDegrees | Space/View/CompassView.swift:118 | the grid has 24 entries, entry i is 15·i, and the entries strictly ascend within [0, 360) |
| Compass.InGrid | Space/View/CompassView.swift:118 | a degree is on the grid exactly when it is a multiple of 15 in [0, 360) |
| Compass.GridLabelsMatchTickStyle | Space/View/CompassView.swift:63-68 | on the grid, a tick is marked for labelling exactly when `labelFor` has a label for it |
| Compass.LabelledAmongMultiplesOf15 | Space/View/CompassView.swift:79-91 | among the multiples of 15 in [0, 360), the labelled ones are 0, 45, …, 315 |
| Compass.GridLabelPositions | Space/View/CompassView.swift:63-91 | the rose shows labels at exactly the eight compass points |
| MarsWeather.Decode | Space/Model/MarsWeatherState.swift:21-37 | the keys are `sol_keys`, or empty when it is missing; a sol is kept exactly when it is listed and its entry decodes; kept data equals the decoded entry |
| MarsWeather.DaysOf | Space/Model/MarsWeatherState.swift:46-51 | no more days than keys; every day is a listed sol that has data, paired with that data |
| MarsWeather.Days | Space/Model/MarsWeatherState.swift:46-51 | no more days than keys; every day is a listed sol with its data, and every listed sol that has data is among the days |
| MarsWeather.Latest | Space/Model/MarsWeatherState.swift:39-42 | present exactly when there are keys and the last key has data; then the last key with its data |
| MarsWeather.DaysOfAppend | Space/Model/MarsWeatherState.swift:46-51 | the days of two key lists one after the other are the days of each, in the same order |
| MarsWeather.DaysOfMembership | Space/Model/MarsWeatherState.swift:46-51 | a sol is among the days exactly when it is listed and has data |
| MarsWeather.LatestIsLastDay | Space/Model/MarsWeatherState.swift:39-51 | when `latest` exists, it is the last of the days |
| Daily.ErrorPart | Space/ViewModel/DailyViewModel.swift:63-82 | no error line for a success; one line, the label followed by the description, for a failure |
| Daily.LoadErrors | Space/ViewModel/DailyViewModel.swift:44-83 | at most three lines; no lines exactly when all three fetches succeeded |
| Daily.LoadErrorMessage | Space/ViewModel/DailyViewModel.swift:85 | no message exactly when all three fetches succeeded |
| Daily.AllFailedMessage | Space/ViewModel/DailyViewModel.swift:58-85 | when all three fail, the message is the Mars, launch and APOD errors, in that order, joined by " • " |
| Daily.MarsErrorComesFirst | Space/ViewModel/DailyViewModel.swift:58-85 | a failed Mars fetch starts the message, whatever else failed |
| Daily.SingleFailureMessage | Space/ViewModel/DailyViewModel.swift:78-85 | a lone failure of any one fetch is reported alone under its own tag, without a separator |
| Daily.FormatMeasurement | Space/ViewModel/DailyViewModel.swift:123-129 | "—" exactly when no value is present; the average wins; then the min–max range when both are present; then a lone minimum "(min)" or a lone maximum "(max)" |
| Daily.AverageHidesRange | Space/ViewModel/DailyViewModel.swift:124 | with an average present, the minimum and maximum do not affect the text |
| Daily.ParseIso | Space/ViewModel/DailyViewModel.swift:154-162 | the fractional-seconds parse when it succeeds, otherwise the plain parse; nothing exactly when both fail |
| Daily.EarthDateText | Space/ViewModel/DailyViewModel.swift:131-144 | "—" for no date and for an unparseable one; otherwise the month and day of the parsed instant |
| Daily.LaunchDateText | Space/ViewModel/DailyViewModel.swift:146-152 | the window opening is chosen before t0 and before parsing; the chosen one, if it parses, gives date and time; otherwise "<dateStr> (estimated)", even when t0 would parse |
| Daily.DegreesText | Space/ViewModel/DailyViewModel.swift:118-119 | "—" for no value; otherwise the whole number and "°C" |
| Daily.MeasurementText | Space/ViewModel/DailyViewModel.swift:94-107 | "—" for a missing measurement; otherwise the formatted measurement; "—" exactly when the measurement is missing or has no value |
| Daily.DailyViewModel.constructor | Space/ViewModel/DailyViewModel.swift:18-27 | nothing loaded, not loading and no error |
| Daily.DailyViewModel.Load | Space/ViewModel/DailyViewModel.swift:39-87 | ignored while loading; otherwise it ends not loading; Mars sets `marsLatest` and `mars` to `latest` and `marsDays` to `days`, or clears all three; it keeps the first three launches or none; it stores the APOD or drops it; the error message is the joined error lines |
| Daily.DailyViewModel.MarsTitle | Space/ViewModel/DailyViewModel.swift:89-92 | "Marsväder" without a sol; otherwise the sol in parentheses |
| Daily.DailyViewModel.MarsTempText | Space/ViewModel/DailyViewModel.swift:94-97 | "—" without a sol; otherwise the air temperature in °C |
| Daily.DailyViewModel.MarsPressureText | Space/ViewModel/DailyViewModel.swift:99-102 | "—" without a sol; otherwise the pressure in Pa |
| Daily.DailyViewModel.MarsWindText | Space/ViewModel/DailyViewModel.swift:104-107 | "—" without a sol; otherwise the wind speed in m/s |
| Daily.DailyViewModel.MarsHeroSolText | Space/ViewModel/DailyViewModel.swift:109-111 | "Sol " followed by the latest sol, or by "—" |
| Daily.DailyViewModel.MarsHeroEarthDateText | Space/ViewModel/DailyViewModel.swift:113-115 | "—" without a latest sol; otherwise the Earth date of its first UTC instant |
| Daily.DailyViewModel.MarsHeroHighLowText | Space/ViewModel/DailyViewModel.swift:117-121 | `High: —   Low: —` without a temperature; otherwise the whole-number maximum and minimum in °C, each missing one shown as "—" |
| Daily.LoadWithMarsFailure | Space/ViewModel/DailyViewModel.swift:39-115 | after a load whose Mars fetch failed, the title is plain and every Mars text shows its fallback ("—", "Sol —", "High: —   Low: —"); the message starts with the Mars error |
| Planets.Insert | Space/ViewModel/PlanetsViewModel.swift:33 | inserting into a list ordered by altitude keeps it ordered and adds exactly that body |
| Planets.SortedByAltitude | Space/ViewModel/PlanetsViewModel.swift:33 | the same bodies, as a multiset, highest altitude first |
| Planets.SortedByAltitudeKeepsSorted | Space/ViewModel/PlanetsViewModel.swift:33 | a list already ordered by altitude is left as it is |
| Planets.SortedByAltitudeIdempotent | Space/ViewModel/PlanetsViewModel.swift:33 | sorting a sorted list changes nothing |
| Planets.SortedHeadIsHighest | Space/ViewModel/PlanetsViewModel.swift:33 | the first body after sorting is at least as high as every body |
| Planets.PlanetsViewModel.constructor | Space/ViewModel/PlanetsViewModel.swift:18-21 | no bodies, not loading and no error |
| Planets.PlanetsViewModel.Load | Space/ViewModel/PlanetsViewModel.swift:27-38 | never left loading; a success gives the fetched bodies highest first, as a permutation, and clears the error; a failure keeps the bodies and records the error |
| PlanetsScreen.Refresh | Space/View/PlanetsView.swift:95-98 | without a position the view model is untouched; with one it is loaded for that position, and the list then shows the error or, on success, the empty note exactly when nothing was returned |
| PlanetsScreen.SectionFor | Space/View/PlanetsView.swift:33-41 | loading comes before the error, the error before the empty note, and the empty note before the rows |
| PlanetsScreen.Badge | Space/View/PlanetsView.swift:50-51 | a badge exactly when the body says whether it is visible to the naked eye: "Naked eye" or "Teleskop" |
| PlanetsScreen.PhaseText | Space/View/PlanetsView.swift:66-67 | a phase line exactly when the body has a phase |
| PlanetsScreen.Rounded | Space/View/PlanetsView.swift:102-103 | the nearest integer, within one half, with ties rounded away from zero |
| PlanetsScreen.NatText | Space/View/PlanetsView.swift:102-103 | at least one decimal digit, and no leading zero unless the number is zero |
| PlanetsScreen.NatTextRoundTrip | Space/View/PlanetsView.swift:102-103 | reading the digits back gives the number |
| PlanetsScreen.IntTextReadsBack | Space/View/PlanetsView.swift:102-103 | a rendered `Int` reads back as itself: a minus sign exactly for negative numbers, then the digits of the magnitude |
| PlanetsScreen.DetailParts | Space/View/PlanetsView.swift:100-111 | two to four parts: altitude, then azimuth, then the magnitude if present, then the constellation if present |
| PlanetsScreen.DetailLine | Space/View/PlanetsView.swift:100-111 | the parts, appended one at a time, joined by " • " |
| PlanetsScreen.DetailLineStartsWithAltAz | Space/View/PlanetsView.swift:102-103 | every detail line starts with the altitude, " • " and the azimuth |
| PlanetsScreen.DetailLineBare | Space/View/PlanetsView.swift:100-111 | with neither magnitude nor constellation, the line is exactly altitude and azimuth |
| PlanetsScreen.DetailLineFull | Space/View/PlanetsView.swift:100-111 | with both present, the line has altitude, azimuth, magnitude and constellation, in that order |

## Left out

- Concurrency:
  - The `while !Task.isCancelled` polling loop and its one-second sleep are not modelled; the model covers one round of the loop (`PollIteration`) and the start/stop guard.
  - What cancellation does to a running round is not modelled.
  - `DailyViewModel.load` starts its three fetches as concurrent tasks, and other code could observe its state while it awaits. The model takes the three outcomes as given and states the state after the call.
- Floating point: the model computes over exact reals.
  - It covers neither `Float` conversion of the AR components nor `Double` rounding error.
  - `CalculatePosition` and `GetArPosition` hold only as far as the assumed facts about `sin`, `cos`, `atan2` and the distance hold.
  - `Int(x.rounded())` can trap for huge values; `Rounded` has no such bound.
- `String(format:)`, `Date.formatted` and `ISO8601DateFormatter` are library behaviour; they are parameters, so the texts are exact only up to those renderings.
- The network services (ISS, APOD, Mars weather, launches, visible planets) and their HTTP status checks are I/O; only their outcomes are modelled. The launch service is asked for five launches; that request is not modelled, only the `prefix(3)` applied to what comes back.
- JSON decoding is library behaviour.
  - For the Mars sols, `Decode` takes the parsed `sol_keys` (absent when it does not decode as a list of strings) and the map of entries that decode as a sol's weather.
  - The other records are taken as already decoded.
- Location:
  - `CLLocationManager` is reduced to counters of the authorisation and update requests and an "updating" flag.
  - In `Space/ViewModel/ISSMapViewModel.swift` the view model is never made the manager's delegate. The delegate callbacks are modelled as plain operations, and the model does not claim when they fire.
  - `Space/Model/LocationManager.swift` is not part of this model.
- `calculatePosition` is a static function of its four arguments and holds no state; the model's `CalculatePosition` is a function of the same arguments, with the numerics added as a fifth.
- SwiftUI layout, drawing and MapKit, ARKit and SceneKit are not modelled. This includes the compass's `labelPoint`, `tickLine` and `angleRadians` pixel geometry, the "Din plats" coordinate text, the `.task`/`.onChange` triggers that call `refresh`, and the loading overlay.
- `PlanetsViewModel.responseMeta` is declared but never assigned, so it is not modelled.
- `APODState.isImage` and the `Identifiable` ids are not used by the modelled logic.
- `Space/Model/VisiblePlanetsResponse.swift` declares a second `VisibleBody` and `VisiblePlanetsResponse`. The model follows `Space/Model/VisiblePlanetsState.swift`, which the sky screen's fields match.
- `Planets.SortedByAltitude`: the model fixes one arrangement of bodies with equal altitude: its insertion sort keeps them in input order, as a stable sort does. Swift's `sorted(by:)` does not promise stability, so only the descending altitude order and the permutation are what the source guarantees; the exact arrangement of ties stated by `PlanetsViewModel.Load` and `Refresh` (`bodies == SortedByAltitude(...)`) goes beyond it.
