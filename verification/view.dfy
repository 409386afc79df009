/** What `App` shows below the input for a given state, and the rows of the
    `Weather` and `Day` components. Only the chosen branch and the values
    handed to each row are modelled, not the markup. */
module View {
  import opened Options
  import opened Icons
  import opened Session

  /** The props `Weather` hands to the `Day` at one index. `.at` yields
      `undefined` (`None`) when a parallel array is shorter than `time`. */
  datatype Row = Row(date: string, max: Option<Temperature>, min: Option<Temperature>,
                     code: Option<int>, isToday: bool)

  /** The row for index `i` of the `daily` arrays. */
  function RowAt(d: Daily, i: nat): Row
    requires i < |d.time|
  {
    Row(d.time[i], At(d.temperatureMax, i), At(d.temperatureMin, i), At(d.weathercode, i), i == 0)
  }

  /** `time.map((date, i) => …)` from index `i` on. */
  function RowsFrom(d: Daily, i: nat): seq<Row>
    requires i <= |d.time|
    decreases |d.time| - i
  {
    if i == |d.time| then [] else [RowAt(d, i)] + RowsFrom(d, i + 1)
  }

  lemma {:induction false} RowsFromIndexwise(d: Daily, i: nat)
    requires i <= |d.time|
    ensures |RowsFrom(d, i)| == |d.time| - i
    ensures forall k :: 0 <= k < |d.time| - i ==> RowsFrom(d, i)[k] == RowAt(d, i + k)
    decreases |d.time| - i
  {
    if i < |d.time| {
      RowsFromIndexwise(d, i + 1);
    }
  }

  /** The rows `Weather` builds: one per entry of `time`, row `i` reading index
      `i` of every parallel array, and only row 0 marked as today. */
  function Rows(d: Daily): (rows: seq<Row>)
    ensures |rows| == |d.time|
    ensures forall i :: 0 <= i < |rows| ==>
      && rows[i].date == d.time[i]
      && rows[i].max == At(d.temperatureMax, i)
      && rows[i].min == At(d.temperatureMin, i)
      && rows[i].code == At(d.weathercode, i)
      && (rows[i].isToday <==> i == 0)
  {
    RowsFromIndexwise(d, 0);
    RowsFrom(d, 0)
  }

  /** With equal-length arrays, as the forecast service sends them, every row
      carries the values of its own index and none is missing. */
  lemma AlignedRows(d: Daily, i: nat)
    requires |d.temperatureMax| == |d.temperatureMin| == |d.weathercode| == |d.time|
    requires i < |d.time|
    ensures var r := Rows(d)[i];
      r == Row(d.time[i], Some(d.temperatureMax[i]), Some(d.temperatureMin[i]), Some(d.weathercode[i]), i == 0)
  {
  }

  /** Exactly one row is today's when there is any row at all. */
  lemma OneToday(d: Daily)
    ensures |set i | 0 <= i < |Rows(d)| && Rows(d)[i].isToday| == (if |d.time| == 0 then 0 else 1)
  {
    var rows := Rows(d);
    if |d.time| > 0 {
      assert (set i | 0 <= i < |rows| && rows[i].isToday) == {0};
    }
  }

  /** The weekday label is `formatDay` of the date, which is not interpreted here. */
  datatype DayLabel = Today | Weekday(date: string)

  /** What one `Day` shows: the glyph, the label and the two temperatures. */
  datatype DayView = DayView(icon: string, caption: DayLabel, min: Option<Temperature>, max: Option<Temperature>)

  function Day(r: Row): DayView {
    DayView(IconFor(r.code), if r.isToday then Today else Weekday(r.date), r.min, r.max)
  }

  /** The branch of the conditional below the input. */
  datatype Screen =
    | Loader
    | ErrorText(message: string)
    | WeatherPanel(heading: string, days: seq<DayView>)
    | Blank

  /** `Weather`: the heading from the place label and one `Day` per row. */
  function WeatherOf(heading: string, d: Daily): (v: Screen)
    ensures v.WeatherPanel? && v.heading == heading && |v.days| == |d.time|
    ensures forall i :: 0 <= i < |v.days| ==>
      && v.days[i].caption == (if i == 0 then Today else Weekday(d.time[i]))
      && v.days[i].icon == IconFor(At(d.weathercode, i))
      && v.days[i].min == At(d.temperatureMin, i)
      && v.days[i].max == At(d.temperatureMax, i)
  {
    var rows := Rows(d);
    WeatherPanel(heading, seq(|rows|, i requires 0 <= i < |rows| => Day(rows[i])))
  }

  /** The conditional: loading beats the error, the error beats the forecast,
      the forecast needs a `daily` object, and otherwise nothing is shown. */
  function Render(s: State): (v: Screen)
    ensures v.Loader? <==> s.isLoading
    ensures v.ErrorText? <==> !s.isLoading && s.error != ""
    ensures v.WeatherPanel? <==> !s.isLoading && s.error == "" && s.weather.Forecast?
    ensures v.Blank? <==> !s.isLoading && s.error == "" && s.weather == NoForecast
    ensures v.ErrorText? ==> v.message == s.error
    ensures v.WeatherPanel? ==> v == WeatherOf(s.placeLabel, s.weather.daily)
  {
    if s.isLoading then Loader
    else if s.error != "" then ErrorText(s.error)
    else
      match s.weather
      case Forecast(d) => WeatherOf(s.placeLabel, d)
      case NoForecast => Blank
  }

  /** A new query of two or more code units shows the loader until a lookup writes. */
  lemma NewQueryShowsLoader(s: State, q: string)
    requires q != s.location && !IsShortQuery(q)
    ensures Render(Step(s, Submitted(q))) == Loader
  {
  }

  /** A new short query keeps the loading flag and the error: a previous error
      message stays on screen, and otherwise nothing is shown. */
  lemma ShortQueryShows(s: State, q: string)
    requires q != s.location && IsShortQuery(q) && !s.isLoading
    ensures Render(Step(s, Submitted(q))) == (if s.error != "" then ErrorText(s.error) else Blank)
  {
  }

  /** Submitting a new query of two or more code units and its successful
      lookup show the forecast under `name, country` of the first result, one
      day per date, today first. */
  lemma SearchShowsForecast(s: State, q: string, places: seq<Place>, d: Daily, m: string)
    requires q != s.location && !IsShortQuery(q) && |places| > 0
    ensures Feasible(Step(s, Submitted(q)), LookupEvents(Results(places), ForecastData(d), m))
    ensures var v := Render(Run(Step(s, Submitted(q)), LookupEvents(Results(places), ForecastData(d), m)));
      v.WeatherPanel? && v.heading == places[0].name + ", " + places[0].country
      && |v.days| == |d.time| && (|v.days| > 0 ==> v.days[0].caption == Today)
  {
    SuccessfulLookup(Step(s, Submitted(q)), places, d, m);
  }

  /** A lookup that fails with a non-empty message shows that message. */
  lemma FailureShowsError(s: State, geo: GeoReply, forecast: ForecastReply, m: string)
    requires s.pending > 0
    requires !(geo.Results? && |geo.places| > 0 && forecast.ForecastData?)
    requires geo.GeoError? ==> geo.message != ""
    requires geo.Results? && |geo.places| == 0 ==> m != ""
    requires geo.Results? && |geo.places| > 0 ==> forecast.message != ""
    ensures Render(Run(s, LookupEvents(geo, forecast, m))).ErrorText?
  {
    FailedLookup(s, geo, forecast, m);
  }

  /** The page: the state, and the screen of the last render. Writing the
      `countryFlag` ref does not re-render, and neither does setting
      `location` to the text it already holds; every other event does. */
  datatype Page = Page(state: State, shown: Screen)

  /** The shown screen is what a render of `s` would give, except perhaps
      for the heading: some label `l` in place of the stored one. */
  ghost predicate UpToHeading(shown: Screen, s: State) {
    exists l :: shown == Render(s.(placeLabel := l))
  }

  /** The first page: the initial state, rendered with nothing below the input. */
  function InitialPage(): (p: Page)
    ensures p.state == Initial && p.shown == Blank
    ensures UpToHeading(p.shown, p.state)
  {
    assert Render(Initial) == Render(Initial.(placeLabel := Initial.placeLabel));
    Page(Initial, Render(Initial))
  }

  /** One event on the page. Whatever the event, a page that shows its state
      up to the heading still does: a ref write or a repeated submit can only
      leave the heading stale, never the branch, the error or the days. */
  function PageStep(p: Page, e: Event): (q: Page)
    ensures q.state == Step(p.state, e)
    ensures e.PlaceResolved? || (e.Submitted? && e.text == p.state.location) ==> q.shown == p.shown
    ensures !e.PlaceResolved? && !(e.Submitted? && e.text == p.state.location) ==> q.shown == Render(q.state)
    ensures UpToHeading(p.shown, p.state) ==> UpToHeading(q.shown, q.state)
  {
    var t := Step(p.state, e);
    if e.PlaceResolved? || (e.Submitted? && e.text == p.state.location) then
      KeptScreenUpToHeading(p, t);
      Page(t, p.shown)
    else
      assert Render(t) == Render(t.(placeLabel := t.placeLabel));
      Page(t, Render(t))
  }

  /** A state that differs from `p.state` at most in its label keeps the
      shown screen correct up to the heading. */
  lemma KeptScreenUpToHeading(p: Page, t: State)
    requires t == p.state.(placeLabel := t.placeLabel)
    ensures UpToHeading(p.shown, p.state) ==> UpToHeading(p.shown, t)
  {
    if UpToHeading(p.shown, p.state) {
      var l :| p.shown == Render(p.state.(placeLabel := l));
      assert t.(placeLabel := l) == p.state.(placeLabel := l);
    }
  }

  /** The page after the events `es`, in order. */
  function PageRun(p: Page, es: seq<Event>): Page
    decreases |es|
  {
    if |es| == 0 then p else PageRun(PageStep(p, es[0]), es[1..])
  }

  /** From the first render on, whatever happens, the page shows the render
      of its state except perhaps for the heading. */
  lemma {:induction false} PageRunUpToHeading(p: Page, es: seq<Event>)
    requires UpToHeading(p.shown, p.state)
    ensures UpToHeading(PageRun(p, es).shown, PageRun(p, es).state)
    ensures PageRun(p, es).state == Run(p.state, es)
    decreases |es|
  {
    if |es| > 0 {
      PageRunUpToHeading(PageStep(p, es[0]), es[1..]);
    }
  }

  lemma ReachablePagesUpToHeading(es: seq<Event>)
    ensures UpToHeading(PageRun(InitialPage(), es).shown, Run(Initial, es))
  {
    PageRunUpToHeading(InitialPage(), es);
  }

  /** A place resolved while a forecast is on screen changes the stored label
      but not the page: the heading stays the old one until the next render,
      where `Render` would already use the new label. */
  lemma RefWriteIsNotShown(p: Page, place: Place)
    requires p.shown == Render(p.state)
    requires !p.state.isLoading && p.state.error == "" && p.state.weather.Forecast?
    requires PlaceLabel(place) != p.state.placeLabel
    ensures var q := PageStep(p, PlaceResolved(place));
      && q.shown == p.shown && q.shown.WeatherPanel? && q.shown.heading == p.state.placeLabel
      && q.shown != Render(q.state)
  {
  }
}
