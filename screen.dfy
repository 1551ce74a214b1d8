/** The weather detail screen: the fields of the weather payload it keeps in
    its state, what one render shows for a given state, and the loading
    lifecycle that mounting and fetch completion drive. */
module WeatherDetail {
  import opened Wrappers
  import opened Presentation

  // ---------------------------------------------------------------------
  // The weather payload, as far as the screen reads it
  // ---------------------------------------------------------------------

  /** `main`: temperatures in kelvin. */
  datatype Main = Main(tempKelvin: Option<real>)

  /** `clouds`: `all` is the cloud cover in percent. */
  datatype Clouds = Clouds(all: Option<int>)

  /** `wind`: the wind speed. */
  datatype Wind = Wind(speed: Option<Speed>)

  /** One entry of the `weather` list: its category, description and icon. */
  datatype Condition = Condition(main: string, description: string, icon: string)

  /** `coord`: where the city is. */
  datatype Coord = Coord(lat: real, lon: real)

  /** The top-level keys of a payload the screen reads; None is a key the
      payload does not carry. */
  datatype Payload = Payload(
    main: Option<Main>,
    clouds: Option<Clouds>,
    wind: Option<Wind>,
    weather: Option<seq<Condition>>,
    coord: Option<Coord>)

  /** The state before any payload arrived: no key at all. */
  const NoPayload: Payload := Payload(None, None, None, None, None)

  /** The top-level keys. */
  datatype Field = MainField | CloudsField | WindField | WeatherField | CoordField

  /** p carries key f. */
  predicate Has(p: Payload, f: Field) {
    match f
    case MainField => p.main.Some?
    case CloudsField => p.clouds.Some?
    case WindField => p.wind.Some?
    case WeatherField => p.weather.Some?
    case CoordField => p.coord.Some?
  }

  /** p and q hold the same value (or the same absence) under key f. */
  predicate Agree(p: Payload, q: Payload, f: Field) {
    match f
    case MainField => p.main == q.main
    case CloudsField => p.clouds == q.clouds
    case WindField => p.wind == q.wind
    case WeatherField => p.weather == q.weather
    case CoordField => p.coord == q.coord
  }

  /** The cloud cover, when present, is a whole percentage. */
  predicate WellFormed(p: Payload) {
    p.clouds.Some? && p.clouds.value.all.Some? ==> 0 <= p.clouds.value.all.value <= 100
  }

  /** `setState({ ...info })`: a shallow merge. The result carries the keys
      of both; a key the payload carries takes the payload's value, every
      other key keeps the old one. */
  function Merge(state: Payload, info: Payload): (r: Payload)
    ensures forall f: Field :: Has(r, f) <==> Has(state, f) || Has(info, f)
    ensures forall f: Field :: Has(info, f) ==> Agree(r, info, f)
    ensures forall f: Field :: !Has(info, f) ==> Agree(r, state, f)
    ensures WellFormed(state) && WellFormed(info) ==> WellFormed(r)
  {
    Payload(
      if info.main.Some? then info.main else state.main,
      if info.clouds.Some? then info.clouds else state.clouds,
      if info.wind.Some? then info.wind else state.wind,
      if info.weather.Some? then info.weather else state.weather,
      if info.coord.Some? then info.coord else state.coord)
  }

  /** Merging the same payload twice changes nothing more. */
  lemma MergeIdempotent(state: Payload, info: Payload)
    ensures Merge(Merge(state, info), info) == Merge(state, info)
  {
  }

  // ---------------------------------------------------------------------
  // One render
  // ---------------------------------------------------------------------

  /** The static map image: centred on the city, fetched with the key. */
  datatype StaticMap = StaticMap(center: Coord, apiKey: string)

  /** What a render shows. */
  datatype View =
    | Spinner
    | Details(colors: Gradient, sky: string, wind: string,
              conditions: seq<Condition>, staticMap: Option<StaticMap>)
    | ErrorPanel(colors: Gradient, message: string)

  /** A render either returns a view or throws out of render(). */
  datatype RenderResult = Rendered(view: View) | Crashed

  /** The message of the error panel ("failed to load the data"). */
  const ErrorMessage: string := "데이터를 로드하는데 실패하였습니다"

  /** The error panel: the "Error" gradient and the fixed message. */
  const ErrorView: View := ErrorPanel(ErrorGradient, ErrorMessage)

  /** renderGoogleMap's key guard: a falsy key (absent or empty) gives no
      map element; any other key gives the map of the city with that key. */
  function MapElement(coord: Coord, apiKey: Option<string>): (m: Option<StaticMap>)
    ensures m.None? <==> apiKey.None? || apiKey.value == ""
    ensures m.Some? ==> m.value.center == coord && m.value.apiKey == apiKey.value
  {
    if apiKey.None? || apiKey.value == "" then None else Some(StaticMap(coord, apiKey.value))
  }

  /** `_get(this.state, ['clouds', 'all'], null)`: the cloud cover, absent
      when `clouds` or `clouds.all` is missing. */
  function CloudCover(p: Payload): Option<int> {
    if p.clouds.Some? then p.clouds.value.all else None
  }

  /** `_get(this.state, ['wind', 'speed'], null)`: the wind speed, absent
      when `wind` or `wind.speed` is missing. */
  function WindSpeed(p: Payload): Option<Speed> {
    if p.wind.Some? then p.wind.value.speed else None
  }

  /** The line renderClouds shows: "Sky: " and then "Null" exactly when the
      cloud cover is absent, otherwise a description that reads back as the
      cover's bucket. */
  function SkyLabel(p: Payload): (line: string)
    requires WellFormed(p)
    ensures |line| > 5 && line[..5] == "Sky: "
    ensures line[5..] == NullText <==> CloudCover(p).None?
    ensures CloudCover(p).Some? ==> BucketOfText(line[5..]) == Some(CloudBucket(CloudCover(p).value))
  {
    var text := SkyText(CloudCover(p));
    SkyTextDeterminesBucket(CloudCover(p));
    assert ("Sky: " + text)[5..] == text;
    "Sky: " + text
  }

  /** The line renderWind shows: "Wind Speed: " and then "Null" exactly when
      the speed is falsy, otherwise a text that reads back as that speed. */
  function WindLabel(p: Payload): (line: string)
    ensures |line| > 12 && line[..12] == "Wind Speed: "
    ensures line[12..] == NullText <==> !Truthy(WindSpeed(p))
    ensures Truthy(WindSpeed(p)) ==> ParseWindText(line[12..]) == WindSpeed(p)
  {
    var text := WindText(WindSpeed(p));
    WindTextShowsSpeed(WindSpeed(p));
    assert ("Wind Speed: " + text)[12..] == text;
    "Wind Speed: " + text
  }

  /** The view the `try` builds under gradient g, for a payload whose weather
      list and coordinates are present: the sky and wind lines, every
      condition of the list, and the map element exactly when the key is
      usable. */
  function DetailsView(g: Gradient, p: Payload, apiKey: Option<string>): (v: View)
    requires WellFormed(p) && p.weather.Some? && p.coord.Some?
    ensures v.Details? && v.colors == g && v.conditions == p.weather.value
    ensures v.sky == SkyLabel(p) && v.wind == WindLabel(p)
    ensures v.staticMap.None? <==> apiKey.None? || apiKey.value == ""
  {
    Details(g, SkyLabel(p), WindLabel(p), p.weather.value, MapElement(p.coord.value, apiKey))
  }

  /** render(). While loading: the spinner only. Otherwise the first
      condition's category is read outside the try, so a missing or empty
      `weather` list throws out of render. Inside the try, an unknown
      category key (the gradient lookup), a missing `main`
      (renderTemperature) or a missing `coord` (renderGoogleMap) throws and
      the catch shows the error panel; otherwise the details are shown under
      the category's gradient. */
  function RenderScreen(isLoading: bool, p: Payload, apiKey: Option<string>): (r: RenderResult)
    requires WellFormed(p)
    ensures r == Rendered(Spinner) <==> isLoading
    ensures r == Crashed <==> !isLoading && (p.weather.None? || p.weather.value == [])
    ensures r.Rendered? && r.view.ErrorPanel? ==> r.view == ErrorView
  {
    if isLoading then Rendered(Spinner)
    else if p.weather.None? || p.weather.value == [] then Crashed
    else
      match LookupGradient(p.weather.value[0].main)
      case None => Rendered(ErrorView)
      case Some(g) =>
        if p.main.None? || p.coord.None? then Rendered(ErrorView)
        else Rendered(DetailsView(g, p, apiKey))
  }

  /** The gradient is chosen by the first condition's category: a category
      in the table gives the details under that category's gradient, and any
      other key gives the error panel with the "Error" gradient and the fixed
      message. */
  lemma GradientSelection(p: Payload, apiKey: Option<string>)
    requires WellFormed(p) && p.weather.Some? && p.weather.value != []
    requires p.main.Some? && p.coord.Some?
    ensures forall c: Category :: Key(c) == p.weather.value[0].main ==>
              RenderScreen(false, p, apiKey) == Rendered(DetailsView(GradientOf(c), p, apiKey))
    ensures p.weather.value[0].main !in TableKeys ==>
              RenderScreen(false, p, apiKey) == Rendered(ErrorView)
  {
  }

  /** Once loaded and with a non-empty weather list, the error panel is shown
      exactly when the category key is unknown or `main` or `coord` is
      missing; the configured map key plays no part. */
  lemma ErrorPanelExactly(p: Payload, apiKey: Option<string>)
    requires WellFormed(p) && p.weather.Some? && p.weather.value != []
    ensures RenderScreen(false, p, apiKey) == Rendered(ErrorView) <==>
              CategoryOfKey(p.weather.value[0].main).None? || p.main.None? || p.coord.None?
  {
  }

  /** A key that is in the table but names no weather category: "Error"
      itself selects the error gradient and still shows the details, not the
      error message. */
  lemma ErrorKeyShowsDetails(p: Payload, apiKey: Option<string>)
    requires WellFormed(p) && p.weather.Some? && p.weather.value != []
    requires p.weather.value[0].main == "Error" && p.main.Some? && p.coord.Some?
    ensures RenderScreen(false, p, apiKey).view.Details?
    ensures RenderScreen(false, p, apiKey).view.colors == ErrorGradient
  {
  }

  /** The render with its map element taken out. */
  function WithoutMap(r: RenderResult): RenderResult {
    if r.Rendered? && r.view.Details? then Rendered(r.view.(staticMap := None)) else r
  }

  /** The map key affects the map element only: two renders of the same state
      that differ in the key agree on everything else, and with no usable key
      there is no map element. */
  lemma MapKeyAffectsOnlyMap(isLoading: bool, p: Payload, k1: Option<string>, k2: Option<string>)
    requires WellFormed(p)
    ensures WithoutMap(RenderScreen(isLoading, p, k1)) == WithoutMap(RenderScreen(isLoading, p, k2))
    ensures (k1.None? || k1.value == "") && RenderScreen(isLoading, p, k1).Rendered? &&
              RenderScreen(isLoading, p, k1).view.Details? ==>
              RenderScreen(isLoading, p, k1).view.staticMap.None?
  {
  }

  // ---------------------------------------------------------------------
  // The loading lifecycle
  // ---------------------------------------------------------------------

  /** The component's state: the loading flag and the payload merged so far. */
  datatype Lifecycle = Lifecycle(isLoading: bool, data: Payload)

  /** The state the constructor sets up. */
  const Initial: Lifecycle := Lifecycle(true, NoPayload)

  /** What drives the state: a mount (componentDidMount) or the completion
      of the fetch it started, with the payload it delivered. */
  datatype Event = DidMount | FetchResolved(info: Payload)

  /** The state after one event: the flag is set exactly by a mount; a
      completed fetch gives each key it carries its value, and every other
      key (all of them, after a mount) keeps the value it had. */
  function Step(s: Lifecycle, e: Event): (t: Lifecycle)
    ensures t.isLoading <==> e.DidMount?
    ensures forall f: Field :: e.FetchResolved? && Has(e.info, f) ==> Agree(t.data, e.info, f)
    ensures forall f: Field :: !(e.FetchResolved? && Has(e.info, f)) ==> Agree(t.data, s.data, f)
  {
    match e
    case DidMount => s.(isLoading := true)
    case FetchResolved(info) => Lifecycle(false, Merge(s.data, info))
  }

  /** The state after a sequence of events, in order. No key is ever lost:
      the state ends up with exactly the keys it started with and those some
      fetch delivered. */
  function Run(s: Lifecycle, events: seq<Event>): (t: Lifecycle)
    ensures forall f: Field :: Has(t.data, f) <==>
              Has(s.data, f) || exists i :: 0 <= i < |events| && events[i].FetchResolved? && Has(events[i].info, f)
    decreases |events|
  {
    if events == [] then s else Step(Run(s, events[..|events| - 1]), events[|events| - 1])
  }

  /** Every delivered payload has whole cloud-cover percentages. */
  predicate PayloadsWellFormed(events: seq<Event>) {
    forall i :: 0 <= i < |events| && events[i].FetchResolved? ==> WellFormed(events[i].info)
  }

  /** Only a mount sets the flag: after any events the screen is loading
      exactly when the last event was a mount, or when there was none and it
      was loading before. */
  lemma OnlyMountStartsLoading(s: Lifecycle, events: seq<Event>)
    ensures Run(s, events).isLoading <==>
              if events == [] then s.isLoading else events[|events| - 1].DidMount?
  {
  }

  /** A fetched payload stays: after a fetch delivered key f, the state keeps
      that value through every later mount and every later fetch that does
      not carry f. */
  lemma {:induction false} FetchedFieldPersists(s: Lifecycle, events: seq<Event>, i: nat, f: Field)
    requires i < |events| && events[i].FetchResolved? && Has(events[i].info, f)
    requires forall j :: i < j < |events| && events[j].FetchResolved? ==> !Has(events[j].info, f)
    ensures Has(Run(s, events).data, f) && Agree(Run(s, events).data, events[i].info, f)
  {
    var n := |events|;
    var prefix := events[..n - 1];
    if i < n - 1 {
      assert forall j :: i < j < |prefix| && prefix[j].FetchResolved? ==> !Has(prefix[j].info, f) by {
        forall j | i < j < |prefix| && prefix[j].FetchResolved? ensures !Has(prefix[j].info, f) {
          assert prefix[j] == events[j];
        }
      }
      FetchedFieldPersists(s, prefix, i, f);
    }
  }

  /** Well-formed payloads keep the state well-formed. */
  lemma {:induction false} RunWellFormed(s: Lifecycle, events: seq<Event>)
    requires WellFormed(s.data) && PayloadsWellFormed(events)
    ensures WellFormed(Run(s, events).data)
  {
    if events != [] {
      var prefix := events[..|events| - 1];
      assert PayloadsWellFormed(prefix) by {
        forall i | 0 <= i < |prefix| && prefix[i].FetchResolved? ensures WellFormed(prefix[i].info) {
          assert prefix[i] == events[i];
        }
      }
      RunWellFormed(s, prefix);
    }
  }

  /** From construction on, the spinner is all that is shown until a fetch
      completes and again after every later mount until the next completion. */
  lemma {:induction false} SpinnerUntilFetched(events: seq<Event>, apiKey: Option<string>)
    requires PayloadsWellFormed(events)
    ensures WellFormed(Run(Initial, events).data)
    ensures (RenderScreen(Run(Initial, events).isLoading, Run(Initial, events).data, apiKey) == Rendered(Spinner))
              <==> (events == [] || events[|events| - 1].DidMount?)
  {
    RunWellFormed(Initial, events);
    OnlyMountStartsLoading(Initial, events);
  }

  /** The screen component: the state that mounting and fetch completion
      update in place, and render, which only reads it. */
  class WeatherDetailScreen {
    var isLoading: bool
    var data: Payload

    ghost predicate Valid()
      reads this
    {
      WellFormed(data)
    }

    /** The state as a value. */
    function State(): Lifecycle
      reads this
    {
      Lifecycle(isLoading, data)
    }

    /** `this.state = { isLoading: true }`. */
    constructor ()
      ensures Valid() && State() == Initial
    {
      isLoading := true;
      data := NoPayload;
    }

    /** `setState({ isLoading: true })`; the fetch it starts completes later,
        through FetchCompleted. */
    method ComponentDidMount()
      requires Valid()
      modifies this
      ensures Valid() && State() == Step(old(State()), DidMount)
    {
      isLoading := true;
    }

    /** The fetch's completion: `setState({ ...info, isLoading: false })`. */
    method FetchCompleted(info: Payload)
      requires Valid() && WellFormed(info)
      modifies this
      ensures Valid() && State() == Step(old(State()), FetchResolved(info))
    {
      data := Merge(data, info);
      isLoading := false;
    }

    /** render(), given the configured map key. */
    method Render(apiKey: Option<string>) returns (r: RenderResult)
      requires Valid()
      ensures r == RenderScreen(isLoading, data, apiKey)
    {
      r := RenderScreen(isLoading, data, apiKey);
    }
  }
}
