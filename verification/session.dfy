/** The state of the `App` component (`weather`, `isLoading`, `error`, the
    submitted `location` and the `countryFlag` label) and the fixed ways the
    `getWeather` effect changes it. The two fetches are abstract replies. */
module Session {
  import opened Options

  /** Temperatures are read from the forecast and passed through unchanged. */
  type Temperature = real

  /** The fields of the first geocoding result that the lookup reads. */
  datatype Place = Place(latitude: real, longitude: real, timezone: string, name: string, country: string)

  /** The forecast's `daily` object: parallel arrays indexed by day. */
  datatype Daily = Daily(time: seq<string>, temperatureMax: seq<Temperature>,
                         temperatureMin: seq<Temperature>, weathercode: seq<int>)

  /** The `weather` state: the initial or cleared `{}`, or a `daily` object. */
  datatype Weather = NoForecast | Forecast(daily: Daily)

  /** The component's state and its `countryFlag` ref (`placeLabel`), plus
      `pending`, the number of lookups started by the effect that have not
      yet completed. The source keeps no such count; it is kept here so that
      the model can say which writes a lookup can still make. */
  datatype State = State(location: string, weather: Weather, isLoading: bool, error: string,
                         placeLabel: string, pending: nat)

  /** The state on first render: every `useState`/`useRef` initial value, no lookup running. */
  const Initial: State := State("", NoForecast, false, "", "", 0)

  /** What changes the state: a submitted query (with the effect's synchronous
      part), and the three points at which a running lookup writes. */
  datatype Event =
    | Submitted(text: string)
    | PlaceResolved(place: Place)
    | Succeeded(daily: Daily)
    | Failed(message: string)

  /** The heading label stored once geocoding has answered. */
  function PlaceLabel(p: Place): string {
    p.name + ", " + p.country
  }

  /** Length of one character in UTF-16 code units, the unit of JavaScript's `length`. */
  function Utf16Units(c: char): nat {
    if c as int > 0xFFFF then 2 else 1
  }

  /** JavaScript's `String.prototype.length` of `s`. */
  function Utf16Length(s: string): (n: nat)
    ensures |s| <= n <= 2 * |s|
  {
    if |s| == 0 then 0 else Utf16Units(s[0]) + Utf16Length(s[1..])
  }

  /** A query the effect does not look up: under two UTF-16 code units. */
  predicate IsShortQuery(q: string) {
    Utf16Length(q) < 2
  }

  /** A query is short exactly when it is empty or a single character of the
      Basic Multilingual Plane; one astral character (an emoji) is long enough. */
  lemma {:induction false} ShortQueryIff(q: string)
    ensures IsShortQuery(q) <==> |q| == 0 || (|q| == 1 && q[0] as int <= 0xFFFF)
  {
    if |q| == 1 {
      assert Utf16Length(q[1..]) == 0;
    }
  }

  /** The effect body for the current `location`: a short query clears the
      forecast and starts nothing; a longer one raises the loading flag and
      starts exactly one lookup, whose writes arrive later as events. */
  function RunEffect(s: State): (t: State)
    ensures t.location == s.location && t.error == s.error && t.placeLabel == s.placeLabel
    ensures IsShortQuery(s.location) ==>
      t.weather == NoForecast && t.isLoading == s.isLoading && t.pending == s.pending
    ensures !IsShortQuery(s.location) ==>
      t.isLoading && t.weather == s.weather && t.pending == s.pending + 1
  {
    if Utf16Length(s.location) < 2 then s.(weather := NoForecast)
    else s.(isLoading := true, pending := s.pending + 1)
  }

  /** The running count after a lookup completes. A completion with no lookup
      running cannot happen (see `Feasible`); the count then stays at zero. */
  function Completed(n: nat): nat {
    if n > 0 then n - 1 else 0
  }

  /** One state change. Submitting the current text again changes nothing,
      since the effect only runs when `location` changes. */
  function Step(s: State, e: Event): (t: State)
    ensures e.Submitted? ==> t.location == e.text && t.error == s.error && t.placeLabel == s.placeLabel
    ensures e.Submitted? && e.text == s.location ==> t == s
    ensures e.Submitted? && e.text != s.location && IsShortQuery(e.text) ==>
      t.weather == NoForecast && t.isLoading == s.isLoading && t.pending == s.pending
    ensures e.Submitted? && e.text != s.location && !IsShortQuery(e.text) ==>
      t.isLoading && t.weather == s.weather && t.pending == s.pending + 1
    ensures !e.Submitted? ==> t.location == s.location
    ensures e.PlaceResolved? ==> t == s.(placeLabel := PlaceLabel(e.place))
    ensures e.Succeeded? ==>
      t.weather == Forecast(e.daily) && t.error == "" && !t.isLoading && t.placeLabel == s.placeLabel
    ensures e.Failed? ==>
      t.weather == s.weather && t.error == e.message && !t.isLoading && t.placeLabel == s.placeLabel
    ensures IsCompletion(e) && s.pending > 0 ==> t.pending == s.pending - 1
  {
    match e
    case Submitted(text) => if text == s.location then s else RunEffect(s.(location := text))
    case PlaceResolved(p) => s.(placeLabel := PlaceLabel(p))
    case Succeeded(d) => s.(weather := Forecast(d), error := "", isLoading := false, pending := Completed(s.pending))
    case Failed(m) => s.(error := m, isLoading := false, pending := Completed(s.pending))
  }

  /** The event with which a lookup ends. */
  predicate IsCompletion(e: Event) {
    e.Succeeded? || e.Failed?
  }

  /** A necessary condition for a run the program can make: a lookup's writes
      only arrive while some lookup is running. It does not order one lookup's
      own writes (a success may come without a resolved place). */
  predicate Feasible(s: State, es: seq<Event>)
    decreases |es|
  {
    |es| == 0 || ((es[0].Submitted? || s.pending > 0) && Feasible(Step(s, es[0]), es[1..]))
  }

  lemma {:induction false} FeasibleAppend(s: State, a: seq<Event>, b: seq<Event>)
    ensures Feasible(s, a + b) <==> Feasible(s, a) && Feasible(Run(s, a), b)
    decreases |a|
  {
    if |a| == 0 {
      assert a + b == b;
    } else {
      assert (a + b)[1..] == a[1..] + b;
      FeasibleAppend(Step(s, a[0]), a[1..], b);
    }
  }

  /** With no lookup running, a short or repeated query starts none: no write
      of a lookup can follow it. */
  lemma ShortQueryStartsNothing(s: State, q: string, es: seq<Event>)
    requires s.pending == 0 && (q == s.location || IsShortQuery(q))
    requires |es| > 0 && !es[0].Submitted?
    ensures !Feasible(Step(s, Submitted(q)), es)
  {
  }

  /** The loading flag is only up while some lookup is running. */
  predicate LoadingMeansRunning(s: State) {
    s.isLoading ==> s.pending > 0
  }

  lemma {:induction false} RunKeepsLoadingMeansRunning(s: State, es: seq<Event>)
    requires LoadingMeansRunning(s)
    ensures LoadingMeansRunning(Run(s, es))
    decreases |es|
  {
    if |es| > 0 {
      RunKeepsLoadingMeansRunning(Step(s, es[0]), es[1..]);
    }
  }

  /** From the first render on, whatever happens, loading implies a running lookup. */
  lemma ReachableLoadingMeansRunning(es: seq<Event>)
    ensures Run(Initial, es).isLoading ==> Run(Initial, es).pending > 0
  {
    RunKeepsLoadingMeansRunning(Initial, es);
  }

  /** The state after the events `es`, in order. */
  function Run(s: State, es: seq<Event>): State
    decreases |es|
  {
    if |es| == 0 then s else Run(Step(s, es[0]), es[1..])
  }

  lemma {:induction false} RunAppend(s: State, a: seq<Event>, b: seq<Event>)
    ensures Run(s, a + b) == Run(Run(s, a), b)
    decreases |a|
  {
    if |a| == 0 {
      assert a + b == b;
    } else {
      assert (a + b)[1..] == a[1..] + b;
      RunAppend(Step(s, a[0]), a[1..], b);
    }
  }

  /** The geocoding request's reply: a thrown error (network or JSON), a body
      whose `results` is missing or falsy (such as `null`), or the `results`
      array, which is truthy even when empty. */
  datatype GeoReply = GeoError(message: string) | NoResultsField | Results(places: seq<Place>)

  /** The forecast request's reply: a thrown error, or the body's `daily` object. */
  datatype ForecastReply = ForecastError(message: string) | ForecastData(daily: Daily)

  const LocationNotFound: string := "Location not found"

  /** The writes one lookup makes, in order. `missingPlaceError` is the message
      of the error the engine throws when the first result of an empty
      `results` array (`undefined`) is destructured. The forecast is only
      requested once a place has been resolved. */
  function LookupEvents(geo: GeoReply, forecast: ForecastReply, missingPlaceError: string): (es: seq<Event>)
    ensures 1 <= |es| <= 2
    ensures es[|es| - 1].Succeeded? || es[|es| - 1].Failed?
    ensures |es| == 2 <==> geo.Results? && |geo.places| > 0
    ensures |es| == 2 ==> es[0] == PlaceResolved(geo.places[0])
    ensures geo.GeoError? ==> es == [Failed(geo.message)]
    ensures geo.NoResultsField? ==> es == [Failed(LocationNotFound)]
    ensures es[|es| - 1].Succeeded? <==>
      geo.Results? && |geo.places| > 0 && forecast.ForecastData?
    ensures es[|es| - 1].Succeeded? ==> es[|es| - 1].daily == forecast.daily
  {
    match geo
    case GeoError(m) => [Failed(m)]
    case NoResultsField => [Failed(LocationNotFound)]
    case Results(places) =>
      if |places| == 0 then [Failed(missingPlaceError)]
      else
        [PlaceResolved(places[0])] +
        match forecast
        case ForecastError(m) => [Failed(m)]
        case ForecastData(d) => [Succeeded(d)]
  }

  /** A successful lookup stores the `daily` object, clears the error, lowers
      the loading flag and labels the place `name, country` of the first
      geocoding result, whatever the state it lands in. */
  lemma SuccessfulLookup(s: State, places: seq<Place>, d: Daily, m: string)
    requires |places| > 0 && s.pending > 0
    ensures Feasible(s, LookupEvents(Results(places), ForecastData(d), m))
    ensures var t := Run(s, LookupEvents(Results(places), ForecastData(d), m));
      t == s.(weather := Forecast(d), error := "", isLoading := false,
              placeLabel := places[0].name + ", " + places[0].country, pending := s.pending - 1)
  {
    var es := LookupEvents(Results(places), ForecastData(d), m);
    assert es == [PlaceResolved(places[0]), Succeeded(d)];
    RunAppend(s, [es[0]], [es[1]]);
    FeasibleAppend(s, [es[0]], [es[1]]);
  }

  /** A failed lookup stores its message and lowers the loading flag, but keeps
      the previous forecast. A reply without `results` fails with "Location not
      found" and changes nothing else; a failure of the forecast request comes
      after the place label has already been replaced. */
  lemma FailedLookup(s: State, geo: GeoReply, forecast: ForecastReply, m: string)
    requires !(geo.Results? && |geo.places| > 0 && forecast.ForecastData?)
    requires s.pending > 0
    ensures Feasible(s, LookupEvents(geo, forecast, m))
    ensures var t := Run(s, LookupEvents(geo, forecast, m));
      && t.weather == s.weather && !t.isLoading && t.location == s.location && t.pending == s.pending - 1
      && (geo.NoResultsField? ==> t == s.(error := LocationNotFound, isLoading := false, pending := s.pending - 1))
      && (geo.GeoError? ==> t == s.(error := geo.message, isLoading := false, pending := s.pending - 1))
      && (geo.Results? && |geo.places| == 0 ==> t == s.(error := m, isLoading := false, pending := s.pending - 1))
      && (geo.Results? && |geo.places| > 0 ==>
            t == s.(error := forecast.message, isLoading := false, placeLabel := PlaceLabel(geo.places[0]),
                    pending := s.pending - 1))
  {
    var es := LookupEvents(geo, forecast, m);
    if |es| == 2 {
      RunAppend(s, [es[0]], [es[1]]);
      FeasibleAppend(s, [es[0]], [es[1]]);
    }
  }

  /** Whatever its replies, a running lookup can make all its writes, ends
      with loading off and one lookup fewer running, and keeps the query. */
  lemma LookupSettles(s: State, geo: GeoReply, forecast: ForecastReply, m: string)
    requires s.pending > 0
    ensures Feasible(s, LookupEvents(geo, forecast, m))
    ensures var t := Run(s, LookupEvents(geo, forecast, m));
      !t.isLoading && t.location == s.location && t.pending == s.pending - 1
  {
    if geo.Results? && |geo.places| > 0 && forecast.ForecastData? {
      SuccessfulLookup(s, geo.places, forecast.daily, m);
    } else {
      FailedLookup(s, geo, forecast, m);
    }
  }

  /** Nothing discards a stale lookup: after "a" and then "b" are submitted,
      and the lookup for "b" has completed, the lookup started for "a" can
      still complete and write its forecast and label, although the current
      query is "b". */
  lemma StaleLookupOverwrites(s: State, a: string, b: string, geoB: GeoReply, forecastB: ForecastReply,
                              placesA: seq<Place>, dA: Daily, m: string)
    requires a != s.location && a != b && !IsShortQuery(a) && !IsShortQuery(b)
    requires |placesA| > 0
    ensures var es := [Submitted(a), Submitted(b)] + LookupEvents(geoB, forecastB, m)
                      + LookupEvents(Results(placesA), ForecastData(dA), m);
      var t := Run(s, es);
      && Feasible(s, es)
      && t.location == b && t.weather == Forecast(dA) && t.placeLabel == PlaceLabel(placesA[0])
      && t.error == "" && !t.isLoading && t.pending == s.pending
  {
    var submits := [Submitted(a), Submitted(b)];
    var lookupB := LookupEvents(geoB, forecastB, m);
    var lookupA := LookupEvents(Results(placesA), ForecastData(dA), m);
    TwoSubmissions(s, a, b);
    var s2 := Run(s, submits);
    assert Feasible(s, submits) by {
      assert submits[1..] == [Submitted(b)];
    }
    LookupSettles(s2, geoB, forecastB, m);
    var s3 := Run(s2, lookupB);
    SuccessfulLookup(s3, placesA, dA, m);
    RunAppend(s, submits, lookupB);
    FeasibleAppend(s, submits, lookupB);
    RunAppend(s, submits + lookupB, lookupA);
    FeasibleAppend(s, submits + lookupB, lookupA);
  }

  /** The loading flag is one boolean for all lookups: when two are running,
      the first to finish lowers it while the other is still pending. */
  lemma LoadingDropsWhileAnotherRuns(s: State, a: string, b: string, geo: GeoReply,
                                     forecast: ForecastReply, m: string)
    requires a != s.location && b != a && !IsShortQuery(a) && !IsShortQuery(b)
    ensures Run(s, [Submitted(a), Submitted(b)]).isLoading
    ensures Run(s, [Submitted(a), Submitted(b)]).pending == s.pending + 2
    ensures var t := Run(s, [Submitted(a), Submitted(b)] + LookupEvents(geo, forecast, m));
      !t.isLoading && t.pending == s.pending + 1 > 0
  {
    TwoSubmissions(s, a, b);
    RunAppend(s, [Submitted(a), Submitted(b)], LookupEvents(geo, forecast, m));
    LookupSettles(Run(s, [Submitted(a), Submitted(b)]), geo, forecast, m);
  }

  /** Unfolds a run of two submissions into its two steps. */
  lemma TwoSubmissions(s: State, a: string, b: string)
    ensures Run(s, [Submitted(a), Submitted(b)]) == Step(Step(s, Submitted(a)), Submitted(b))
  {
    var s1 := Step(s, Submitted(a));
    assert [Submitted(a), Submitted(b)][1..] == [Submitted(b)];
    assert Run(s1, [Submitted(b)]) == Run(Step(s1, Submitted(b)), []);
  }
}
