# Classy Weather — a Dafny model of its core logic

Classy Weather is a one-file React client (`src/App.js`). The user types a
place name. The app geocodes it with Open-Meteo, fetches a seven-day forecast
for the first match, and lists one row per day, each with a weather glyph.
This project models the three pieces of that file that are plain logic, and
proves properties of them:

- **`Icons`**: `getWeatherIcon`. It is a fixed table of WMO condition-code
  groups with one glyph each, searched with `find`. A code in no group gets
  the marker `"NOT FOUND"`.
- **`Session`**: the `App` state (`location`, `weather`, `isLoading`,
  `error`, and the `countryFlag` ref that holds the place label) and the
  writes the `getWeather` effect makes. The state also counts the lookups
  that have started and not yet completed (`pending`). The source keeps no
  such count. The model uses it to say when a lookup's writes can still
  arrive (`Feasible`). It is a pure `Step` function over events:
  - a submitted query, together with the effect's synchronous part;
  - the place being resolved, which sets the label;
  - a lookup succeeding with a `daily` object;
  - a lookup failing with a message.

  The two fetches become abstract replies (`GeoReply`, `ForecastReply`).
  `LookupEvents` turns a pair of replies into the writes one lookup makes.
- **`View`**: the render conditional in `App` (loader, error text, forecast
  or nothing) and the index-wise rows that `Weather` hands to `Day`.
  `Render` is what a render of a given state produces. `Page` pairs the state
  with the screen of the last render. Writing the `countryFlag` ref alone does
  not re-render, so after a place is resolved the page can show an older
  heading than `Render` would.

`Options` holds `Option` and `At`, which models JavaScript's `Array.prototype.at`.

Behaviour of the code to know before reading the model:

- **No stale-result discard.** An `AbortController` is created but never
  aborted, and the effect has no cleanup. So a lookup for a superseded query
  still writes its result when it finishes (`Session.StaleLookupOverwrites`).
  The loading flag is shared by all lookups, so the first lookup to finish
  lowers it (`Session.LoadingDropsWhileAnotherRuns`).
- **Resubmitting the same text starts no new lookup.** The effect depends on
  `[location]` and `setLocation` receives an equal string.
- **The query is used as typed.** It is not trimmed. "Short" means fewer than
  2 UTF-16 code units (JavaScript's `length`). A single character above
  U+FFFF (most emoji) is two units long and starts a lookup. A single
  character such as U+2600 is one unit and counts as short.
- **A short query keeps other state.** It clears `weather` but leaves
  `isLoading` and `error` as they were. It starts no lookup
  (`Session.ShortQueryStartsNothing`).
- **Only a missing or falsy (such as `null`) `results` field gives "Location
  not found".** An empty `results` array is truthy. It fails instead with the
  engine's error for destructuring `undefined`. The model takes that message
  as a parameter.
- **The place label changes before the forecast is fetched.** It is set as
  soon as geocoding answers, so a failed forecast request still replaces it.

## Model

| member | source | states |
|---|---|---|
| Icons.FindGroup | src/App.js:15 | `find` returns the first group whose codes include the code, and none exactly when no group includes it |
| Icons.ResolveIn | src/App.js:15-17 | an unlisted code gives `"NOT FOUND"` and the lookup never fails; for disjoint groups the result is the glyph of the group holding the code |
| Icons.TableDisjoint | src/App.js:3-14 | no code belongs to two groups of the table |
| Icons.GetWeatherIcon | src/App.js:2-18 | a listed code gets its own group's glyph; the result is `"NOT FOUND"` exactly for codes in no group |
| Icons.DrizzleGroup | src/App.js:9 | each of 51, 56, 61, 66, 80 resolves to the glyph U+1F326 |
| Icons.SameGroupSameGlyph | src/App.js:4-17 | for every group, any two of its codes resolve to the same glyph, the group's own |
| Icons.ResolveOrderIndependent | src/App.js:3-17 | any rearrangement of a table of disjoint groups resolves every code the same way |
| Icons.IconFor | src/App.js:129-141 | a day shows `"NOT FOUND"` exactly when its code is `undefined` (past the end of `weathercode`) or in no group; a code in a group shows that group's glyph |
| Session.Utf16Length | src/App.js:48 | a string's JavaScript length lies between its number of characters and twice that |
| Session.ShortQueryIff | src/App.js:48 | a query is short exactly when it is empty or one character of the Basic Multilingual Plane |
| Session.RunEffect | src/App.js:47-56 | for a short query the effect clears the forecast, leaves loading and error alone, and starts no lookup; otherwise it raises loading, leaves the forecast, and starts exactly one lookup |
| Session.Step | src/App.js:45-89 | resubmitting the same text is a no-op; a new query never changes error or label, and starts one lookup exactly when it is new and two or more code units long; success stores the daily record, clears the error and lowers loading; failure stores the message, lowers loading and keeps the forecast; the label changes only when a place is resolved; a completion ends one running lookup |
| Session.ShortQueryStartsNothing | src/App.js:48-56 | with no lookup running, no write of a lookup can follow a short or repeated query |
| Session.RunKeepsLoadingMeansRunning | src/App.js:54-79 | every event keeps "loading implies some lookup is running" |
| Session.ReachableLoadingMeansRunning | src/App.js:38-79 | from the first render on, whatever happens, loading implies some lookup is running |
| Session.LookupEvents | src/App.js:53-80 | a lookup writes one or two events and ends in exactly one success or failure; a missing `results` field fails with "Location not found"; it succeeds exactly when geocoding returns a first result and the forecast arrives |
| Session.SuccessfulLookup | src/App.js:63-79 | after a successful lookup, the state holds the returned daily record, an empty error, loading off, and the label `name, country` of the first result, with one lookup fewer running and nothing else changed; the lookup's writes can all arrive |
| Session.FailedLookup | src/App.js:53-80 | after a failed lookup, the error holds the failure's message, loading is off and the forecast is unchanged; the label changes only when the failure came after geocoding; one lookup fewer is running |
| Session.LookupSettles | src/App.js:53-80 | whatever its replies, a running lookup can make all its writes and ends with loading off, the query kept, and one lookup fewer running |
| Session.StaleLookupOverwrites | src/App.js:45-85 | two new queries a then b start two lookups; after b's lookup completes, a's lookup can still complete and install its forecast and label while the current query is b |
| Session.LoadingDropsWhileAnotherRuns | src/App.js:54-79 | with two lookups started, loading is on, and the first completion turns it off while the other is still running |
| View.Rows | src/App.js:124-132 | one row per entry of `time`; row i reads index i of each parallel array (`undefined` past the end); only row 0 is today |
| View.AlignedRows | src/App.js:124-132 | with equal-length arrays, row i carries `time[i]`, `temperature_2m_max[i]`, `temperature_2m_min[i]`, `weathercode[i]`, and is today iff i = 0 |
| View.OneToday | src/App.js:131 | exactly one row is marked today when there are dates, none otherwise |
| View.WeatherOf | src/App.js:119-147 | the forecast panel carries the place label and one day per date; day i shows "Today" iff i = 0 and otherwise the weekday of `time[i]`, plus the glyph of `weathercode[i]` and the day's two temperatures |
| View.Render | src/App.js:96-104 | exactly one branch shows. Loading beats error and error beats forecast. The forecast shows iff not loading, the error is empty and a daily record is held. Otherwise nothing is shown |
| View.NewQueryShowsLoader | src/App.js:48-97 | a new query of two or more code units shows the loader |
| View.ShortQueryShows | src/App.js:48-104 | a new short query, when nothing is loading, shows the previous error if there was one, and otherwise nothing |
| View.SearchShowsForecast | src/App.js:63-132 | a new query of two or more code units, followed by its successful lookup, shows the forecast headed `name, country`, one day per date, the first labelled "Today" |
| View.FailureShowsError | src/App.js:75-99 | a running lookup failing with a non-empty message ends showing error text |
| View.InitialPage | src/App.js:38-105 | the first page holds the initial state, shows nothing below the input, and so shows its state's render |
| View.PageStep | src/App.js:42-65 | one event keeps the page showing the render of its state up to the heading: a ref write or a repeated submit can leave only the heading stale, never the branch, the error or the days |
| View.PageRunUpToHeading | src/App.js:42-122 | over any events, the page keeps showing the render of its state except perhaps for the heading, and its state is the state's run |
| View.ReachablePagesUpToHeading | src/App.js:38-122 | from the first page on, whatever happens, the page shows the render of the current state except perhaps for the heading |
| View.RefWriteIsNotShown | src/App.js:65-122 | while a forecast is shown, a newly resolved place changes the stored label but the page keeps the old heading, which differs from what `Render` would now give |

## Left out

- The `fetch` calls, URL construction and JSON parsing are left out. They are abstract replies, and any error they throw is a reply carrying its message.
- A forecast body without a `daily` object is left out. In the source, rendering it would throw.
- React hooks, the form and the markup are left out. Only the state fields, the ref's label and the chosen branch are modelled.
- A completion is one atomic step. This assumes React 18's automatic batching of the writes made after the last `await`. The file does not show which root API mounts the app; without that batching, each write would render on its own.
- A new query is one step. The render between `setLocation` and the effect's `setIsLoading(true)` is not modelled.
- View.PageStep: re-renders after every completion. React would skip a render when each write stores the value already held. This matters only for a heading the ref has changed in between.
- Session.Utf16Length: covers only well-formed text. Dafny strings cannot hold the lone surrogates that a JavaScript string can.
- Interleaving between lookups is not limited: any event order can be run. The source gives no order guarantee.
- `Feasible` is only a necessary condition for a run the program can make. It does not order one lookup's own writes, so it admits a success with no resolved place, or two resolved places from one lookup. The lemmas that build runs use `LookupEvents`, which does order them.
- `formatDay` is left uninterpreted, because it depends on `Intl.DateTimeFormat` and `Date`. A non-today row shows `Weekday(date)`.
- `Math.floor`/`Math.ceil` on temperatures are left out. They are floating-point; temperatures are `real` values passed through unchanged.
- Non-integer or `null` weather codes are left out. Codes are integers.
- The commented-out `convertToFlag` and the `console.error` logging are left out.
- `Icons.ResolveOrderIndependent` requires both tables to be disjoint. It does not derive the second table's disjointness from the first's.
