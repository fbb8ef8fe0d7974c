/** The request side of the gateway (server.py): the five module-level
    caches, filling them from the National Weather Service API, the
    five-minute weather cache, the payload parser and the token check and
    path router of `RequestHandler.do_POST`. The upstream API and the
    clock are parameters. */
module Server {
  import opened PyValue
  import opened PyStr
  import Hwo
  import Forecast

  /** Largest accepted `Content-Length` of a POST payload. */
  const MaxLen: int := 128
  /** Minutes a weather bundle is served from the cache. */
  const CacheTime: int := 5

  /** Grid X and Y of a forecast office. */
  type Grid = (Scalar, Scalar)

  /** A `{"city": ..., "state": ...}` dictionary. */
  datatype CityState = CityState(city: string, state: string)

  /** A `weather_info` entry: both forecasts, the outlook and the time of
      the refresh that fetched them. */
  datatype Bundle = Bundle(
    hourly: Forecast.ForecastDict,
    forecast: Forecast.ForecastDict,
    hwo: Option<seq<Hwo.Entry>>,
    time: int)

  /** What `parse_payload` returns: the grid and the city and state, `None`
      (answered with 404) or `-1` (answered with 400). */
  datatype Parsed =
    | Location(x: Scalar, y: Scalar, city: Scalar, state: Scalar)
    | Unknown
    | Invalid

  /** A response body. `send_status_code` writes `{"error": 400,
      "message": ...}` whatever the status, and nothing without a message. */
  datatype Body =
    | Empty
    | ErrorJson(message: string)
    | NullJson
    | BundleJson(bundle: Bundle)
    | ForecastJson(forecast: Forecast.ForecastDict)
    | OutlookJson(hwo: Option<seq<Hwo.Entry>>)
    | SpotterJson(spotters: seq<string>)

  datatype Response = Response(status: int, body: Body)

  /** What `get_weather` returns: a bundle, or `None` after it has sent the
      given error response. */
  datatype WeatherReply = Served(bundle: Bundle) | Refused(response: Response)

  /** Everything `do_POST` sends, in order, and the exception that ends it,
      if any. */
  datatype Handled = Handled(sent: seq<Response>, raised: Option<PyError>)

  // ---------------------------------------------------------------------
  // Nested dictionaries

  /** `m.setdefault(k, {})[l] = v`: the nested entry set, the inner
      dictionary created when missing, every other entry kept. */
  function Put<K, L, V>(m: map<K, map<L, V>>, k: K, l: L, v: V): (r: map<K, map<L, V>>)
    ensures r.Keys == m.Keys + {k}
    ensures l in r[k] && r[k][l] == v
    ensures r[k].Keys == (if k in m then m[k].Keys else {}) + {l}
    ensures forall a :: a in m && a != k ==> r[a] == m[a]
    ensures k in m ==> forall b :: b in m[k] && b != l ==> r[k][b] == m[k][b]
  {
    m[k := (if k in m then m[k] else map[])[l := v]]
  }

  /** Creating the outer level when missing and then setting the entry in
      place is a `setdefault` write. */
  lemma RecordOnce<K, L, V>(m: map<K, map<L, V>>, k: K, l: L, v: V)
    ensures var m1 := if k !in m then m[k := map[]] else m;
      m1[k := m1[k][l := v]] == Put(m, k, l, v)
  {
  }

  /** Creating both outer levels first and then setting both entries in
      place is the same as two `setdefault` writes. */
  lemma RecordTwice<K, L, V>(m: map<K, map<L, V>>, a: K, b: L, c: K, d: L, v: V)
    ensures var m1 := if a !in m then m[a := map[]] else m;
      var m2 := if c !in m1 then m1[c := map[]] else m1;
      var m3 := m2[a := m2[a][b := v]];
      m3[c := m3[c][d := v]] == Put(Put(m, a, b, v), c, d, v)
  {
    var m1 := if a !in m then m[a := map[]] else m;
    var m2 := if c !in m1 then m1[c := map[]] else m1;
    var m3 := m2[a := m2[a][b := v]];
    var p := Put(m, a, b, v);
    assert m3.Keys == p.Keys + {c};
    PutOver(m3, p, c, d, v);
  }

  /** Setting an entry in a map that differs from `p` only by an empty
      dictionary under `c` is the `setdefault` write on `p`. */
  lemma PutOver<K, L, V>(n: map<K, map<L, V>>, p: map<K, map<L, V>>, c: K, d: L, v: V)
    requires n.Keys == p.Keys + {c}
    requires forall k :: k in p ==> n[k] == p[k]
    requires c !in p ==> n[c] == map[]
    ensures n[c := n[c][d := v]] == Put(p, c, d, v)
  {
  }

  /** The key a coordinate is looked up under: `get_location_grid` turns
      an `int` into its text and leaves every other value alone. */
  function CoordinateKey(v: Scalar): (k: Scalar)
    ensures !k.Int?
    ensures v.Int? ==> k == Str(IntToString(v.i))
    ensures !v.Int? ==> k == v
  {
    if v.Int? then Str(IntToString(v.i)) else v
  }

  /** `get_location_grid((lat, lon))`: `coordinates[lat][lon]` gives the
      city and state, `locations[state][city]` the grid; a missing link at
      any step gives `None`. */
  function LocationGrid(coordinates: map<Scalar, map<Scalar, CityState>>,
                        locations: map<string, map<string, Grid>>,
                        lat: Scalar, lon: Scalar): (r: Option<Grid>)
    ensures var la, lo := CoordinateKey(lat), CoordinateKey(lon);
      r.Some? <==>
        && la in coordinates && lo in coordinates[la]
        && coordinates[la][lo].state in locations
        && coordinates[la][lo].city in locations[coordinates[la][lo].state]
    ensures r.Some? ==>
      var cs := coordinates[CoordinateKey(lat)][CoordinateKey(lon)];
      r.value == locations[cs.state][cs.city]
  {
    var la, lo := CoordinateKey(lat), CoordinateKey(lon);
    if la in coordinates && lo in coordinates[la] then
      var info := coordinates[la][lo];
      if info.state in locations && info.city in locations[info.state] then
        Some(locations[info.state][info.city])
      else None
    else None
  }

  /** An integer coordinate is found under its decimal text, and two
      distinct integers never share an entry. */
  lemma LocationGridIntKeys(coordinates: map<Scalar, map<Scalar, CityState>>,
                            locations: map<string, map<string, Grid>>,
                            lat: int, lon: int)
    ensures LocationGrid(coordinates, locations, Int(lat), Int(lon)) ==
            LocationGrid(coordinates, locations, Str(IntToString(lat)), Str(IntToString(lon)))
    ensures forall lat' :: lat' != lat ==> CoordinateKey(Int(lat')) != CoordinateKey(Int(lat))
  {
    forall lat' | lat' != lat ensures CoordinateKey(Int(lat')) != CoordinateKey(Int(lat)) {
      if IntToString(lat') == IntToString(lat) {
        IntToStringInjective(lat', lat);
      }
    }
  }

  /** Once the user's coordinates are recorded with a city and state and
      the grid is recorded under that city and state, the grid lookup finds
      the grid, whatever other coordinates were recorded before. */
  lemma {:induction false} LocationGridAfterRecord(coordinates: map<Scalar, map<Scalar, CityState>>,
                                                   locations: map<string, map<string, Grid>>,
                                                   cityLat: Scalar, cityLon: Scalar,
                                                   lat: string, lon: string, cs: CityState, grid: Grid)
    ensures LocationGrid(Put(Put(coordinates, cityLat, cityLon, cs), Str(lat), Str(lon), cs),
                         Put(locations, cs.state, cs.city, grid), Str(lat), Str(lon)) == Some(grid)
  {
    var c := Put(Put(coordinates, cityLat, cityLon, cs), Str(lat), Str(lon), cs);
    assert c[Str(lat)][Str(lon)] == cs;
  }

  /** `d[state][city]` for `locations` or `offices` indexed by payload
      values, `None` on KeyError: the keys of both dictionaries are
      strings, so a value of another type never matches. */
  function CityLookup<V>(d: map<string, map<string, V>>, state: Scalar, city: Scalar): (r: Option<V>)
    ensures r.Some? <==> state.Str? && city.Str? && state.s in d && city.s in d[state.s]
    ensures r.Some? ==> r.value == d[state.s][city.s]
  {
    if state.Str? && city.Str? && state.s in d && city.s in d[state.s] then
      Some(d[state.s][city.s])
    else None
  }

  // ---------------------------------------------------------------------
  // Filling the location caches

  /** The four location dictionaries `get_location_info` writes and
      `parse_payload` reads. */
  datatype Tables = Tables(
    locations: map<string, map<string, Grid>>,
    coordinates: map<Scalar, map<Scalar, CityState>>,
    offices: map<string, map<string, string>>,
    officesLocations: map<string, CityState>)

  /** The writes of `get_location_info` once both lookups succeeded. */
  function Recorded(t: Tables, lat: string, lon: string, cs: CityState, grid: Grid,
                    cityLat: Scalar, cityLon: Scalar, office: string, officeCs: CityState): (r: Tables)
    ensures LocationGrid(r.coordinates, r.locations, Str(lat), Str(lon)) == Some(grid)
    ensures r.coordinates[Str(lat)][Str(lon)] == cs
  {
    LocationGridAfterRecord(t.coordinates, t.locations, cityLat, cityLon, lat, lon, cs, grid);
    Tables(Put(t.locations, cs.state, cs.city, grid),
           Put(Put(t.coordinates, cityLat, cityLon, cs), Str(lat), Str(lon), cs),
           Put(t.offices, cs.state, cs.city, office),
           t.officesLocations[office := officeCs])
  }

  /** What `get_location_info((lat, lon))` returns and the dictionaries
      after it: the point lookup, the office lookup of its `cwa`, and on
      success the writes of `Recorded`. */
  function LocationInfo(api: Forecast.Api, lat: string, lon: string, t: Tables): (r: (Outcome<bool>, Tables))
    ensures r.0 != Return(true) ==> r.1 == t
    ensures r.0 == Return(false) <==>
      && api.point((lat, lon)).Return?
      && |api.point((lat, lon)).value.coordinates| >= 2
      && api.point((lat, lon)).value.cwa.None?
    ensures r.0 == Return(true) ==>
      && api.point((lat, lon)).Return?
      && var d := api.point((lat, lon)).value;
      && d.cwa.Some? && |d.coordinates| >= 2
      && api.officeName(d.cwa.value).Return?
      && Forecast.OfficeLocation(api.officeName(d.cwa.value).value).Return?
      && var officeCs := Forecast.OfficeLocation(api.officeName(d.cwa.value).value).value;
      && r.1 == Recorded(t, lat, lon, CityState(d.city, d.state), (d.gridX, d.gridY),
                         d.coordinates[1], d.coordinates[0], d.cwa.value, CityState(officeCs.0, officeCs.1))
      && LocationGrid(r.1.coordinates, r.1.locations, Str(lat), Str(lon)) == Some((d.gridX, d.gridY))
      && r.1.coordinates[Str(lat)][Str(lon)] == CityState(d.city, d.state)
    ensures api.point((lat, lon)).Raise? ==> r.0 == Raise(api.point((lat, lon)).error)
    ensures api.point((lat, lon)).Return? && |api.point((lat, lon)).value.coordinates| < 2 ==>
      r.0 == Raise(IndexError)
    ensures api.point((lat, lon)).Return? ==>
      var d := api.point((lat, lon)).value;
      |d.coordinates| >= 2 && d.cwa.Some? ==>
        var name := api.officeName(d.cwa.value);
        && (name.Raise? ==> r.0 == Raise(name.error))
        && (name.Return? && Forecast.OfficeLocation(name.value).Raise? ==>
              r.0 == Raise(Forecast.OfficeLocation(name.value).error))
        && (name.Return? && Forecast.OfficeLocation(name.value).Return? ==> r.0 == Return(true))
  {
    match api.point((lat, lon))
    case Raise(e) => (Raise(e), t)
    case Return(d) =>
      if |d.coordinates| < 2 then (Raise(IndexError), t)
      else if d.cwa.None? then (Return(false), t)
      else
        match api.officeName(d.cwa.value)
        case Raise(e) => (Raise(e), t)
        case Return(name) =>
          match Forecast.OfficeLocation(name)
          case Raise(e) => (Raise(e), t)
          case Return(officeCs) =>
            (Return(true), Recorded(t, lat, lon, CityState(d.city, d.state), (d.gridX, d.gridY),
                                    d.coordinates[1], d.coordinates[0], d.cwa.value,
                                    CityState(officeCs.0, officeCs.1)))
  }

  /** What `parse_payload(payload)` returns and the dictionaries after it.
      The dictionaries change only through `get_location_info` for the
      payload's coordinates. With a city and state the result is never
      `-1`, since `result < 0` never holds for a bool; without them it is
      never `None`, since a successful lookup always records the user's
      coordinates. */
  function ParseResult(api: Forecast.Api, payload: map<string, Scalar>, t: Tables): (r: (Outcome<Parsed>, Tables))
    ensures r.1 != t ==>
      "lat" in payload && "lon" in payload
      && r.1 == LocationInfo(api, StrOf(payload["lat"]), StrOf(payload["lon"]), t).1
    ensures "city" in payload && "state" in payload ==> r.0 != Return(Invalid)
    ensures !("city" in payload && "state" in payload) ==> r.0 != Return(Unknown)
    ensures !("city" in payload && "state" in payload) && r.0.Return? && r.0.value.Location? ==>
      r.0.value.city.Str? && r.0.value.state.Str?
  {
    if "city" in payload && "state" in payload then
      var city, state := payload["city"], payload["state"];
      var cached := CityLookup(t.locations, state, city);
      if cached.Some? then (Return(Location(cached.value.0, cached.value.1, city, state)), t)
      else if "lat" !in payload || "lon" !in payload then (Return(Unknown), t)
      else
        var lat, lon := StrOf(payload["lat"]), StrOf(payload["lon"]);
        if Str(lat) in t.coordinates && Str(lon) in t.coordinates[Str(lat)] then
          (Return(Location(Str("city"), Str("state"), city, state)), t)
        else
          var info := LocationInfo(api, lat, lon, t);
          if info.0.Raise? then (Raise(info.0.error), info.1)
          else
            var again := CityLookup(info.1.locations, state, city);
            if again.None? then (Raise(KeyError), info.1)
            else (Return(Location(again.value.0, again.value.1, city, state)), info.1)
    else if "lat" !in payload || "lon" !in payload then (Return(Invalid), t)
    else
      var lat, lon := StrOf(payload["lat"]), StrOf(payload["lon"]);
      var cached := LocationGrid(t.coordinates, t.locations, Str(lat), Str(lon));
      if cached.Some? then
        var cs := t.coordinates[Str(lat)][Str(lon)];
        (Return(Location(cached.value.0, cached.value.1, Str(cs.city), Str(cs.state))), t)
      else
        var info := LocationInfo(api, lat, lon, t);
        if info.0.Raise? then (Raise(info.0.error), info.1)
        else if info.0 == Return(false) then (Return(Invalid), info.1)
        else
          var again := LocationGrid(info.1.coordinates, info.1.locations, Str(lat), Str(lon));
          if again.None? then (Return(Unknown), info.1)
          else
            var cs := info.1.coordinates[Str(lat)][Str(lon)];
            (Return(Location(again.value.0, again.value.1, Str(cs.city), Str(cs.state))), info.1)
  }

  /** Without an API call: a cached city and state give their grid; a
      city and state without coordinates give `None`; a city and state
      whose coordinates are cached give the two keys of the cached
      dictionary as the grid; coordinates whose grid is cached give that
      grid with the cached city and state. */
  lemma ParseFromCache(api: Forecast.Api, payload: map<string, Scalar>, t: Tables)
    ensures "city" in payload && "state" in payload ==>
      var cached := CityLookup(t.locations, payload["state"], payload["city"]);
      && (cached.Some? ==>
            ParseResult(api, payload, t) ==
            (Return(Location(cached.value.0, cached.value.1, payload["city"], payload["state"])), t))
      && (cached.None? && ("lat" !in payload || "lon" !in payload) ==>
            ParseResult(api, payload, t) == (Return(Unknown), t))
      && (cached.None? && "lat" in payload && "lon" in payload
          && Str(StrOf(payload["lat"])) in t.coordinates
          && Str(StrOf(payload["lon"])) in t.coordinates[Str(StrOf(payload["lat"]))] ==>
            ParseResult(api, payload, t) ==
            (Return(Location(Str("city"), Str("state"), payload["city"], payload["state"])), t))
    ensures !("city" in payload && "state" in payload) ==>
      && (("lat" !in payload || "lon" !in payload) ==> ParseResult(api, payload, t) == (Return(Invalid), t))
      && ("lat" in payload && "lon" in payload ==>
            var lat, lon := Str(StrOf(payload["lat"])), Str(StrOf(payload["lon"]));
            var cached := LocationGrid(t.coordinates, t.locations, lat, lon);
            cached.Some? ==>
              var cs := t.coordinates[lat][lon];
              ParseResult(api, payload, t) ==
              (Return(Location(cached.value.0, cached.value.1, Str(cs.city), Str(cs.state))), t))
  {
  }

  /** Coordinates that are not cached are looked up: the lookup's
      exception propagates, an office-less point gives `-1`, and a
      successful lookup gives the point's grid, city and state with the
      dictionaries it filled. */
  lemma ParseCoordinatesFill(api: Forecast.Api, payload: map<string, Scalar>, t: Tables)
    requires !("city" in payload && "state" in payload) && "lat" in payload && "lon" in payload
    requires LocationGrid(t.coordinates, t.locations, Str(StrOf(payload["lat"])), Str(StrOf(payload["lon"]))).None?
    ensures var lat, lon := StrOf(payload["lat"]), StrOf(payload["lon"]);
      var info := LocationInfo(api, lat, lon, t);
      && (info.0.Raise? ==> ParseResult(api, payload, t) == (Raise(info.0.error), t))
      && (info.0 == Return(false) ==> ParseResult(api, payload, t) == (Return(Invalid), t))
      && (info.0 == Return(true) ==>
            var d := api.point((lat, lon)).value;
            ParseResult(api, payload, t) ==
            (Return(Location(d.gridX, d.gridY, Str(d.city), Str(d.state))), info.1))
  {
  }

  /** A city and state that are not cached, with coordinates that are not
      cached either: the lookup's exception propagates; an office-less
      point is not caught by `result < 0`, so indexing `locations` raises
      KeyError; a lookup that records the same city and state gives the
      point's grid. */
  lemma ParseCityFill(api: Forecast.Api, payload: map<string, Scalar>, t: Tables)
    requires "city" in payload && "state" in payload && "lat" in payload && "lon" in payload
    requires CityLookup(t.locations, payload["state"], payload["city"]).None?
    requires !(Str(StrOf(payload["lat"])) in t.coordinates
               && Str(StrOf(payload["lon"])) in t.coordinates[Str(StrOf(payload["lat"]))])
    ensures var lat, lon := StrOf(payload["lat"]), StrOf(payload["lon"]);
      var info := LocationInfo(api, lat, lon, t);
      && (info.0.Raise? ==> ParseResult(api, payload, t) == (Raise(info.0.error), t))
      && (info.0 == Return(false) ==> ParseResult(api, payload, t) == (Raise(KeyError), t))
      && (info.0 == Return(true)
          && payload["state"] == Str(api.point((lat, lon)).value.state)
          && payload["city"] == Str(api.point((lat, lon)).value.city) ==>
            var d := api.point((lat, lon)).value;
            ParseResult(api, payload, t) ==
            (Return(Location(d.gridX, d.gridY, payload["city"], payload["state"])), info.1))
  {
  }

  // ---------------------------------------------------------------------
  // The weather cache

  /** A bundle fetched at `time` is refreshed at `now` only when it is
      strictly older than five minutes. */
  predicate Stale(time: int, now: int) {
    time < now - CacheTime * 60
  }

  /** The comparison is strict: a bundle exactly 300 seconds old is still
      served, one 301 seconds old is not, and one fetched now never is. */
  lemma StaleBoundary(time: int, now: int)
    ensures Stale(time, now) <==> now - time > 300
    ensures !Stale(now - 300, now) && Stale(now - 301, now) && !Stale(now, now)
  {
  }

  /** What `refresh_weather((x, y), office)` returns: the hourly and
      regular forecasts, then the office city and state from
      `offices_locations` (`None` when the office is not there), then the
      outlook matched against that city and state. */
  function Refreshed(api: Forecast.Api, grid: Grid, office: string,
                     officesLocations: map<string, CityState>, now: int): (r: Outcome<Option<Bundle>>)
  {
    match Forecast.FetchForecast(api, office, grid, true)
    case Raise(e) => Raise(e)
    case Return(hourly) =>
      if hourly.None? then Return(None)
      else
        match Forecast.FetchForecast(api, office, grid, false)
        case Raise(e) => Raise(e)
        case Return(regular) =>
          if regular.None? then Return(None)
          else if office !in officesLocations then Return(None)
          else
            var info := officesLocations[office];
            match Forecast.OutlookOf(api, office, Some(info.city), Some(info.state), false)
            case Raise(e) => Raise(e)
            case Return(hwo) => Return(Some(Bundle(hourly.value, regular.value, hwo, now)))
  }

  /** A refresh yields a bundle only when both fetches succeeded and the
      office's city and state are cached; the bundle holds exactly those
      forecasts, the outlook for that city and state, and the current
      time. A known office never gives `None`. */
  lemma RefreshedBundle(api: Forecast.Api, grid: Grid, office: string,
                        officesLocations: map<string, CityState>, now: int)
    ensures var r := Refreshed(api, grid, office, officesLocations, now);
      && (r.Return? && r.value.Some? ==>
            && office in officesLocations
            && Forecast.FetchForecast(api, office, grid, true) == Return(Some(r.value.value.hourly))
            && Forecast.FetchForecast(api, office, grid, false) == Return(Some(r.value.value.forecast))
            && Forecast.OutlookOf(api, office, Some(officesLocations[office].city),
                                  Some(officesLocations[office].state), false) == Return(r.value.value.hwo)
            && r.value.value.time == now
            && !Stale(r.value.value.time, now))
      && (r == Return(None) <==>
            && Forecast.FetchForecast(api, office, grid, true).Return?
            && Forecast.FetchForecast(api, office, grid, false).Return?
            && office !in officesLocations)
  {
  }

  /** `weather_info` after `get_weather` has created the office and `x`
      levels. */
  function WithLevels(w: map<string, map<Scalar, map<Scalar, Bundle>>>, office: string, x: Scalar)
    : (r: map<string, map<Scalar, map<Scalar, Bundle>>>)
    ensures office in r && x in r[office]
    ensures r.Keys == w.Keys + {office}
    ensures forall o :: o in w && o != office ==> r[o] == w[o]
    ensures office in w ==> r[office].Keys == w[office].Keys + {x}
    ensures office in w ==> forall a :: a in w[office] ==> r[office][a] == w[office][a]
    ensures office !in w ==> r[office].Keys == {x}
    ensures office !in w || x !in w[office] ==> r[office][x] == map[]
  {
    var w1 := if office !in w then w[office := map[]] else w;
    if x !in w1[office] then w1[office := w1[office][x := map[]]] else w1
  }

  /** The message of the 400 `get_weather` sends when no weather can be
      obtained. */
  function UnableMessage(x: Scalar, y: Scalar): string {
    "Unable to obtain weather information for the coordinates " + StrOf(x) + ", " + StrOf(y)
  }

  const NotFoundMessage: string := "Not found. Please try specifying coordinates instead"

  /** `weather_info`: the cached bundle under office, grid X and grid Y. */
  type WeatherMap = map<string, map<Scalar, map<Scalar, Bundle>>>

  /** The part of `get_weather` after the payload is parsed, and
      `weather_info` after it: find the office, create its levels, serve
      the cached bundle while it is fresh, refresh it when it is missing or
      stale, and answer 400 when no weather can be obtained. */
  function WeatherFor(api: Forecast.Api, x: Scalar, y: Scalar, city: Scalar, state: Scalar, now: int,
                      t: Tables, w: WeatherMap): (r: (Outcome<WeatherReply>, WeatherMap))
    ensures CityLookup(t.offices, state, city).None? ==> r == (Raise(KeyError), w)
    ensures CityLookup(t.offices, state, city).Some? ==>
      var office := CityLookup(t.offices, state, city).value;
      office in r.1 && x in r.1[office]
    ensures r.0.Return? && r.0.value.Served? ==> !Stale(r.0.value.bundle.time, now)
    ensures CityLookup(t.offices, state, city).Some? ==>
      var office := CityLookup(t.offices, state, city).value;
      var levels := WithLevels(w, office, x);
      && (y in levels[office][x] && !Stale(levels[office][x][y].time, now) ==>
            r == (Return(Served(levels[office][x][y])), levels))
      && (y !in levels[office][x] || Stale(levels[office][x][y].time, now) ==>
            r == RefreshReply(api, x, y, office, now, t.officesLocations, levels))
  {
    var known := CityLookup(t.offices, state, city);
    if known.None? then (Raise(KeyError), w)
    else
      var office := known.value;
      var levels := WithLevels(w, office, x);
      if y in levels[office][x] && !Stale(levels[office][x][y].time, now) then
        (Return(Served(levels[office][x][y])), levels)
      else RefreshReply(api, x, y, office, now, t.officesLocations, levels)
  }

  /** `refresh_weather` called from `get_weather`, and `weather_info`
      after it: the new bundle is stored and served, or 400 when none can
      be obtained. A served bundle was fetched now. */
  function RefreshReply(api: Forecast.Api, x: Scalar, y: Scalar, office: string, now: int,
                        officesLocations: map<string, CityState>, levels: WeatherMap)
    : (r: (Outcome<WeatherReply>, WeatherMap))
    requires office in levels && x in levels[office]
    ensures r.0.Return? && r.0.value.Served? ==> r.0.value.bundle.time == now
    ensures r.0.Return? && r.0.value.Served? ==>
      r.1 == levels[office := Put(levels[office], x, y, r.0.value.bundle)]
    ensures !(r.0.Return? && r.0.value.Served?) ==> r.1 == levels
    ensures forall b :: Refreshed(api, (x, y), office, officesLocations, now) == Return(Some(b)) <==>
      r.0 == Return(Served(b))
    ensures Refreshed(api, (x, y), office, officesLocations, now).Raise? ==>
      r.0 == Raise(Refreshed(api, (x, y), office, officesLocations, now).error)
    ensures Refreshed(api, (x, y), office, officesLocations, now) == Return(None) ==>
      r.0 == Return(Refused(Response(400, ErrorJson(UnableMessage(x, y)))))
  {
    RefreshedBundle(api, (x, y), office, officesLocations, now);
    match Refreshed(api, (x, y), office, officesLocations, now)
    case Raise(e) => (Raise(e), levels)
    case Return(None) => (Return(Refused(Response(400, ErrorJson(UnableMessage(x, y))))), levels)
    case Return(Some(b)) => (Return(Served(b)), levels[office := Put(levels[office], x, y, b)])
  }

  /** What `get_weather(payload)` returns and the dictionaries after it.
      The `try` around `parse_payload` catches TypeError, also one raised
      inside it, and then `result` is still `None`: answered with 404. A
      `-1` does not unpack either and is answered with 400. */
  function Respond(api: Forecast.Api, payload: map<string, Scalar>, t: Tables, w: WeatherMap, now: int)
    : (r: (Outcome<WeatherReply>, Tables, WeatherMap))
    ensures !("city" in payload && "state" in payload) && ("lat" !in payload || "lon" !in payload) ==>
      r == (Return(Refused(Response(400, ErrorJson("Invalid parameters")))), t, w)
    ensures "city" in payload && "state" in payload && ("lat" !in payload || "lon" !in payload)
            && CityLookup(t.locations, payload["state"], payload["city"]).None? ==>
      r == (Return(Refused(Response(404, ErrorJson(NotFoundMessage)))), t, w)
    ensures r.0 == Raise(TypeError) ==> ParseResult(api, payload, t).0.Return?
    ensures r.0.Return? && r.0.value.Served? ==> !Stale(r.0.value.bundle.time, now)
    ensures r.1 == ParseResult(api, payload, t).1
    ensures var p := ParseResult(api, payload, t);
      && (p.0.Raise? && p.0.error != TypeError ==> r.0 == Raise(p.0.error))
      && (p.0 == Raise(TypeError) || p.0 == Return(Unknown) ==>
            r.0 == Return(Refused(Response(404, ErrorJson(NotFoundMessage)))))
      && (p.0 == Return(Invalid) ==> r.0 == Return(Refused(Response(400, ErrorJson("Invalid parameters")))))
      && (!(p.0.Return? && p.0.value.Location?) ==> r.2 == w)
      && (p.0.Return? && p.0.value.Location? ==>
            (r.0, r.2) == WeatherFor(api, p.0.value.x, p.0.value.y, p.0.value.city, p.0.value.state,
                                     now, p.1, w))
  {
    var parsed := ParseResult(api, payload, t);
    match parsed.0
    case Raise(e) =>
      if e == TypeError then (Return(Refused(Response(404, ErrorJson(NotFoundMessage)))), parsed.1, w)
      else (Raise(e), parsed.1, w)
    case Return(Unknown) => (Return(Refused(Response(404, ErrorJson(NotFoundMessage)))), parsed.1, w)
    case Return(Invalid) => (Return(Refused(Response(400, ErrorJson("Invalid parameters")))), parsed.1, w)
    case Return(Location(x, y, city, state)) =>
      var weather := WeatherFor(api, x, y, city, state, now, parsed.1, w);
      (weather.0, parsed.1, weather.1)
  }

  /** The five module-level dictionaries. */
  class Caches {
    /** `locations[state][city]` is the grid. */
    var locations: map<string, map<string, Grid>>
    /** `coordinates[lat][lon]` is the city and state. */
    var coordinates: map<Scalar, map<Scalar, CityState>>
    /** `weather_info[office][x][y]` is the cached bundle. */
    var weatherInfo: map<string, map<Scalar, map<Scalar, Bundle>>>
    /** `offices[state][city]` is the office. */
    var offices: map<string, map<string, string>>
    /** `offices_locations[office]` is the office's city and state. */
    var officesLocations: map<string, CityState>

    constructor ()
      ensures locations == map[] && coordinates == map[] && weatherInfo == map[]
      ensures offices == map[] && officesLocations == map[]
    {
      locations := map[];
      coordinates := map[];
      weatherInfo := map[];
      offices := map[];
      officesLocations := map[];
    }

    /** The four location dictionaries. */
    function Snapshot(): Tables
      reads this
    {
      Tables(locations, coordinates, offices, officesLocations)
    }

    /** `get_location_info((lat, lon))`: look the point and its office up;
        on success record the grid under the city and state, the city and
        state under both the reference and the user coordinates, the office
        under the city and state and the office's city and state under the
        office. Nothing is written when a lookup fails or raises. */
    method GetLocationInfo(api: Forecast.Api, lat: string, lon: string) returns (r: Outcome<bool>)
      modifies this
      ensures weatherInfo == old(weatherInfo)
      ensures (r, Snapshot()) == LocationInfo(api, lat, lon, old(Snapshot()))
    {
      var fc := new Forecast.Forecast(None);
      var point := fc.GetPoint(api, Some((lat, lon)));
      if point.Raise? {
        return Raise(point.error);
      }
      if point.value < 0 {
        return Return(false);
      }
      var officeInfo := fc.GetOfficeInfo(api, fc.office);
      if officeInfo.Raise? {
        return Raise(officeInfo.error);
      }
      if officeInfo.value < 0 {
        return Return(false);
      }
      ghost var d := api.point((lat, lon)).value;
      assert fc.state == Some(d.state) && fc.city == Some(d.city) && fc.office == d.cwa;
      assert fc.grid == Some((d.gridX, d.gridY)) && fc.cityLatLon == Some((d.coordinates[1], d.coordinates[0]));
      Record(lat, lon, CityState(fc.city.value, fc.state.value), fc.grid.value, fc.cityLatLon.value.0,
             fc.cityLatLon.value.1, fc.office.value, CityState(fc.officeCity.value, fc.officeState.value));
      return Return(true);
    }

    /** The writes of `get_location_info` once both lookups succeeded: the
        missing intermediate dictionaries are created, then the entries
        set. The empty leaf dictionaries the source creates under both
        coordinate pairs and under the office are overwritten before
        anything reads them, and each map is written independently of the
        others, so the writes are grouped by map. */
    method Record(lat: string, lon: string, cs: CityState, grid: Grid, cityLat: Scalar, cityLon: Scalar,
                  office: string, officeCs: CityState)
      modifies this
      ensures weatherInfo == old(weatherInfo)
      ensures locations == Put(old(locations), cs.state, cs.city, grid)
      ensures coordinates == Put(Put(old(coordinates), cityLat, cityLon, cs), Str(lat), Str(lon), cs)
      ensures officesLocations == old(officesLocations)[office := officeCs]
      ensures offices == Put(old(offices), cs.state, cs.city, office)
      ensures LocationGrid(coordinates, locations, Str(lat), Str(lon)) == Some(grid)
    {
      RecordLocation(cs, grid);
      RecordCoordinates(lat, lon, cs, cityLat, cityLon);
      RecordOffice(cs, office, officeCs);
      LocationGridAfterRecord(old(coordinates), old(locations), cityLat, cityLon, lat, lon, cs, grid);
    }

    /** `locations[state][city] = grid`, creating the state level. */
    method RecordLocation(cs: CityState, grid: Grid)
      modifies this
      ensures locations == Put(old(locations), cs.state, cs.city, grid)
      ensures coordinates == old(coordinates) && weatherInfo == old(weatherInfo)
      ensures offices == old(offices) && officesLocations == old(officesLocations)
    {
      var locs := locations;
      if cs.state !in locs {
        locs := locs[cs.state := map[]];
      }
      locs := locs[cs.state := locs[cs.state][cs.city := grid]];
      RecordOnce(locations, cs.state, cs.city, grid);
      locations := locs;
    }

    /** The city and state under the reference city's coordinates and then
        under the user's coordinates, creating the latitude levels first. */
    method RecordCoordinates(lat: string, lon: string, cs: CityState, cityLat: Scalar, cityLon: Scalar)
      modifies this
      ensures coordinates == Put(Put(old(coordinates), cityLat, cityLon, cs), Str(lat), Str(lon), cs)
      ensures locations == old(locations) && weatherInfo == old(weatherInfo)
      ensures offices == old(offices) && officesLocations == old(officesLocations)
    {
      var coords := coordinates;
      if cityLat !in coords {
        coords := coords[cityLat := map[]];
      }
      if Str(lat) !in coords {
        coords := coords[Str(lat) := map[]];
      }
      coords := coords[cityLat := coords[cityLat][cityLon := cs]];
      coords := coords[Str(lat) := coords[Str(lat)][Str(lon) := cs]];
      RecordTwice(coordinates, cityLat, cityLon, Str(lat), Str(lon), cs);
      coordinates := coords;
    }

    /** The office's city and state under the office, and the office under
        the user's city and state, creating the state level. */
    method RecordOffice(cs: CityState, office: string, officeCs: CityState)
      modifies this
      ensures officesLocations == old(officesLocations)[office := officeCs]
      ensures offices == Put(old(offices), cs.state, cs.city, office)
      ensures locations == old(locations) && coordinates == old(coordinates) && weatherInfo == old(weatherInfo)
    {
      var offs := offices;
      if cs.state !in offs {
        offs := offs[cs.state := map[]];
      }
      officesLocations := officesLocations[office := officeCs];
      offs := offs[cs.state := offs[cs.state][cs.city := office]];
      RecordOnce(offices, cs.state, cs.city, office);
      offices := offs;
    }

    /** `refresh_weather((x, y), office)`: the new bundle is stored in
        `weather_info[office][x][y]` only when every fetch and the office
        lookup succeeded; otherwise the cache is left as it was. */
    method RefreshWeather(api: Forecast.Api, grid: Grid, office: string, now: int)
      returns (r: Outcome<Option<Bundle>>)
      modifies this
      ensures locations == old(locations) && coordinates == old(coordinates)
      ensures offices == old(offices) && officesLocations == old(officesLocations)
      ensures var expected := Refreshed(api, grid, office, officesLocations, now);
        if expected.Return? && expected.value.Some? then
          if office in old(weatherInfo) && grid.0 in old(weatherInfo)[office] then
            r == expected
            && weatherInfo == old(weatherInfo)[office := Put(old(weatherInfo)[office], grid.0, grid.1, expected.value.value)]
          else r == Raise(KeyError) && weatherInfo == old(weatherInfo)
        else r == expected && weatherInfo == old(weatherInfo)
    {
      var fetched := FetchBundle(api, grid, office, now);
      if fetched.Raise? || fetched.value.None? {
        return fetched;
      }
      var data := fetched.value.value;
      var (x, y) := grid;
      if office !in weatherInfo || x !in weatherInfo[office] {
        return Raise(KeyError);
      }
      weatherInfo := weatherInfo[office := weatherInfo[office][x := weatherInfo[office][x][y := data]]];
      return Return(Some(data));
    }

    /** The fetches of `refresh_weather`, through a fresh `Forecast` object:
        both forecasts, then the outlook for the office's cached city and
        state. */
    method FetchBundle(api: Forecast.Api, grid: Grid, office: string, now: int)
      returns (r: Outcome<Option<Bundle>>)
      ensures r == Refreshed(api, grid, office, officesLocations, now)
    {
      var fc := new Forecast.Forecast(None);
      var hourly := fc.GetForecastHourly(api, Some(grid), Some(office));
      if hourly.Raise? {
        return Raise(hourly.error);
      }
      if hourly.value.None? {
        return Return(None);
      }
      var regular := fc.GetForecast(api, Some(grid), Some(office), false);
      if regular.Raise? {
        return Raise(regular.error);
      }
      if regular.value.None? {
        return Return(None);
      }
      fc.office := Some(office);
      if office !in officesLocations {
        return Return(None);
      }
      var info := officesLocations[office];
      fc.officeCity := Some(info.city);
      fc.officeState := Some(info.state);
      var hwo := fc.GetHwo(api, false);
      if hwo.Raise? {
        return Raise(hwo.error);
      }
      return Return(Some(Bundle(hourly.value.value, regular.value.value, hwo.value, now)));
    }

    /** `parse_payload(payload)`: city and state first, from the cache or
        through the coordinates; otherwise the coordinates, from the cache
        or through the API. */
    method ParsePayload(api: Forecast.Api, payload: map<string, Scalar>) returns (r: Outcome<Parsed>)
      modifies this
      ensures weatherInfo == old(weatherInfo)
      ensures (r, Snapshot()) == ParseResult(api, payload, old(Snapshot()))
    {
      if "city" in payload && "state" in payload {
        var location: Grid;
        var cached := CityLookup(locations, payload["state"], payload["city"]);
        if cached.Some? {
          location := cached.value;
        } else {
          if "lat" !in payload || "lon" !in payload {
            return Return(Unknown);
          }
          var payloadLat := StrOf(payload["lat"]);
          var payloadLon := StrOf(payload["lon"]);
          if Str(payloadLat) in coordinates && Str(payloadLon) in coordinates[Str(payloadLat)] {
            // `x, y = location` unpacks the cached {"city": ..., "state": ...}
            // dictionary into its two keys.
            location := (Str("city"), Str("state"));
          } else {
            var result := GetLocationInfo(api, payloadLat, payloadLon);
            if result.Raise? {
              return Raise(result.error);
            }
            // `result < 0` compares a bool with 0, which never holds.
            if (if result.value then 1 else 0) < 0 {
              return Return(Invalid);
            }
            var again := CityLookup(locations, payload["state"], payload["city"]);
            if again.None? {
              return Raise(KeyError);
            }
            location := again.value;
          }
        }
        return Return(Location(location.0, location.1, payload["city"], payload["state"]));
      } else {
        if "lat" !in payload || "lon" !in payload {
          return Return(Invalid);
        }
        var lat := StrOf(payload["lat"]);
        var lon := StrOf(payload["lon"]);
        var location := LocationGrid(coordinates, locations, Str(lat), Str(lon));
        if location.None? {
          var result := GetLocationInfo(api, lat, lon);
          if result.Raise? {
            return Raise(result.error);
          }
          if !result.value {
            return Return(Invalid);
          }
          location := LocationGrid(coordinates, locations, Str(lat), Str(lon));
          if location.None? {
            return Return(Unknown);
          }
        }
        var cityState := coordinates[Str(lat)][Str(lon)];
        return Return(Location(location.value.0, location.value.1, Str(cityState.city), Str(cityState.state)));
      }
    }

    /** The part of `get_weather` after the payload is parsed: find the
        office, serve the cached bundle while it is fresh, refresh it when
        it is missing or stale. */
    method WeatherAt(api: Forecast.Api, x: Scalar, y: Scalar, city: Scalar, state: Scalar, now: int)
      returns (r: Outcome<WeatherReply>)
      modifies this
      ensures Snapshot() == old(Snapshot())
      ensures (r, weatherInfo) == WeatherFor(api, x, y, city, state, now, old(Snapshot()), old(weatherInfo))
    {
      var known := CityLookup(offices, state, city);
      if known.None? {
        return Raise(KeyError);
      }
      var office := known.value;
      AddLevels(office, x);
      var weather: Bundle;
      if y in weatherInfo[office][x] {
        weather := weatherInfo[office][x][y];
      } else {
        var update := RefreshAt(api, x, y, office, now);
        if !(update.Return? && update.value.Served?) {
          return update;
        }
        weather := update.value.bundle;
      }
      if Stale(weather.time, now) {
        r := RefreshAt(api, x, y, office, now);
        return;
      }
      return Return(Served(weather));
    }

    /** `refresh_weather((x, y), office)` in `get_weather`, with `None`
        answered by 400. */
    method RefreshAt(api: Forecast.Api, x: Scalar, y: Scalar, office: string, now: int)
      returns (r: Outcome<WeatherReply>)
      requires office in weatherInfo && x in weatherInfo[office]
      modifies this
      ensures Snapshot() == old(Snapshot())
      ensures (r, weatherInfo) == RefreshReply(api, x, y, office, now, officesLocations, old(weatherInfo))
    {
      var update := RefreshWeather(api, (x, y), office, now);
      if update.Raise? {
        return Raise(update.error);
      }
      if update.value.None? {
        return Return(Refused(Response(400, ErrorJson(UnableMessage(x, y)))));
      }
      return Return(Served(update.value.value));
    }

    /** `weather_info[office]` and `weather_info[office][x]` created when
        missing. */
    method AddLevels(office: string, x: Scalar)
      modifies this
      ensures weatherInfo == WithLevels(old(weatherInfo), office, x)
      ensures locations == old(locations) && coordinates == old(coordinates)
      ensures offices == old(offices) && officesLocations == old(officesLocations)
    {
      if office !in weatherInfo {
        weatherInfo := weatherInfo[office := map[]];
      }
      if x !in weatherInfo[office] {
        weatherInfo := weatherInfo[office := weatherInfo[office][x := map[]]];
      }
    }

    /** `RequestHandler.get_weather(payload)`: a payload that cannot be
        located is answered with 404 (`None`) or 400 (`-1`); every bundle
        served is at most five minutes old. */
    method GetWeather(api: Forecast.Api, payload: map<string, Scalar>, now: int)
      returns (r: Outcome<WeatherReply>)
      modifies this
      ensures (r, Snapshot(), weatherInfo) == Respond(api, payload, old(Snapshot()), old(weatherInfo), now)
    {
      var parsed := ParsePayload(api, payload);
      if parsed.Raise? {
        if parsed.error == TypeError {
          // caught by the `try`; `result` is still `None`
          return Return(Refused(Response(404, ErrorJson(NotFoundMessage))));
        }
        return Raise(parsed.error);
      }
      match parsed.value
      case Unknown =>
        return Return(Refused(Response(404, ErrorJson(NotFoundMessage))));
      case Invalid =>
        return Return(Refused(Response(400, ErrorJson("Invalid parameters"))));
      case Location(x, y, city, state) =>
        r := WeatherAt(api, x, y, city, state, now);
    }

    /** `RequestHandler.do_POST`: the token check, the payload length and
        decoding, then the route. The request's `Content-Length` converted by
        `int()` and its decoded JSON object with scalar members (`None` when
        the body does not decode) are given. */
    method DoPost(api: Forecast.Api, key: Value, auth: Option<string>, contentLength: Outcome<int>,
                  payload: Option<map<string, Scalar>>, path: string, now: int)
      returns (r: Handled)
      modifies this
      ensures Authorize(auth, key).Some? ==>
        r == Handled([Authorize(auth, key).value], None) && unchanged(this)
      ensures Authorize(auth, key).None? && contentLength.Raise? ==>
        r == Handled([], Some(contentLength.error)) && unchanged(this)
      ensures Authorize(auth, key).None? && contentLength.Return? && contentLength.value > MaxLen ==>
        r == Handled([Response(400, ErrorJson("Payload too large"))], None) && unchanged(this)
      ensures Authorize(auth, key).None? && contentLength.Return? && contentLength.value <= MaxLen
              && payload.None? ==>
        r == Handled([Response(400, ErrorJson("JSON decoding error"))], None) && unchanged(this)
      ensures Authorize(auth, key).None? && contentLength.Return? && contentLength.value <= MaxLen
              && payload.Some? && !(Route(path).Return? && Route(path).value.Weather?) ==>
        unchanged(this) &&
        match Route(path)
        case Raise(e) => r == Handled([], Some(e))
        case Return(NoPath) => r == Handled([Response(400, ErrorJson("No path specified"))], None)
        case Return(Favicon) => r == Handled([Response(404, Empty)], None)
        case Return(_) => r == Handled([Response(400, ErrorJson("Invalid path"))], None)
      ensures Authorize(auth, key).None? && contentLength.Return? && contentLength.value <= MaxLen
              && payload.Some? && Route(path).Return? && Route(path).value.Weather? ==>
        var reply := Respond(api, payload.value, old(Snapshot()), old(weatherInfo), now);
        r == Answer(Route(path).value.view, reply.0) && Snapshot() == reply.1 && weatherInfo == reply.2
    {
      var rejected := Authorize(auth, key);
      if rejected.Some? {
        return Handled([rejected.value], None);
      }
      if contentLength.Raise? {
        return Handled([], Some(contentLength.error));
      }
      if contentLength.value > MaxLen {
        return Handled([Response(400, ErrorJson("Payload too large"))], None);
      }
      if payload.None? {
        return Handled([Response(400, ErrorJson("JSON decoding error"))], None);
      }
      var target := Route(path);
      if target.Raise? {
        return Handled([], Some(target.error));
      }
      match target.value
      case NoPath =>
        return Handled([Response(400, ErrorJson("No path specified"))], None);
      case Favicon =>
        return Handled([Response(404, Empty)], None);
      case InvalidPath =>
        return Handled([Response(400, ErrorJson("Invalid path"))], None);
      case Weather(view) =>
        var weather := GetWeather(api, payload.value, now);
        if weather.Raise? {
          return Handled([], Some(weather.error));
        }
        match weather.value
        case Refused(response) =>
          // `get_weather` has answered and returned `None`; the route goes on
          // with `None`.
          if view == All {
            return Handled([response, Response(200, NullJson)], None);
          }
          return Handled([response], Some(TypeError));
        case Served(bundle) =>
          match view
          case All => return Handled([Response(200, BundleJson(bundle))], None);
          case ForecastView => return Handled([Response(200, ForecastJson(bundle.forecast))], None);
          case HourlyView => return Handled([Response(200, ForecastJson(bundle.hourly))], None);
          case OutlookView => return Handled([Response(200, OutlookJson(bundle.hwo))], None);
          case SpotterView =>
            if bundle.hwo.None? {
              // iterating over `None`
              return Handled([], Some(TypeError));
            }
            var spotters := CollectSpotters(bundle.hwo.value);
            if spotters.Raise? {
              return Handled([], Some(spotters.error));
            }
            return Handled([Response(200, SpotterJson(spotters.value))], None);
    }
  }

  // ---------------------------------------------------------------------
  // Token check and routing

  /** The rejection `do_POST` sends for an `Authorization` header, or
      `None` when the request may go on: 403 without a header; 400 when it
      does not start with `Bearer`, does not split on single spaces into
      exactly two parts, or its second part is not the configured key. */
  function Authorize(auth: Option<string>, key: Value): (r: Option<Response>)
    ensures auth.None? ==> r == Some(Response(403, ErrorJson("Missing token")))
    ensures r.Some? ==> r.value.status in {400, 403}
    ensures auth.Some? && r.Some? ==> r.value.status == 400
    ensures auth.Some? && !StartsWith(auth.value, "Bearer") ==>
      r == Some(Response(400, ErrorJson("Invalid token format")))
    ensures auth.Some? && StartsWith(auth.value, "Bearer") && |Split(auth.value, " ")| != 2 ==>
      r == Some(Response(400, ErrorJson("Invalid token format")))
    ensures auth.Some? && StartsWith(auth.value, "Bearer") && |Split(auth.value, " ")| == 2
            && key != Leaf(Str(Split(auth.value, " ")[1])) ==>
      r == Some(Response(400, ErrorJson("Bad token")))
  {
    if auth.None? then Some(Response(403, ErrorJson("Missing token")))
    else if !StartsWith(auth.value, "Bearer") then Some(Response(400, ErrorJson("Invalid token format")))
    else
      var tokens := Split(auth.value, " ");
      if |tokens| != 2 then Some(Response(400, ErrorJson("Invalid token format")))
      else if key != Leaf(Str(tokens[1])) then Some(Response(400, ErrorJson("Bad token")))
      else None
  }

  /** A string without the character splits into itself. */
  lemma SplitWithoutChar(s: string, c: char)
    requires c !in s
    ensures Split(s, [c]) == [s]
  {
    forall i | 0 <= i <= |s| - 1 ensures !OccursAt(s, [c], i) {
      assert s[i..i + 1] == [s[i]];
    }
    SplitAbsent(s, [c]);
  }

  /** Every header `word + " " + token` whose first word starts with
      `Bearer` and holds no space, and whose token is the configured key
      and holds no space, is accepted; a first word such as `Bearerx`
      passes as well. */
  lemma AuthorizeAccepts(word: string, token: string, key: Value)
    requires StartsWith(word, "Bearer") && ' ' !in word && ' ' !in token
    requires key == Leaf(Str(token))
    ensures Authorize(Some(word + " " + token), key) == None
  {
    SplitCharHead(word, token, ' ');
    SplitWithoutChar(token, ' ');
    assert word + " " + token == word + [' '] + token;
    assert StartsWith(word + " " + token, "Bearer") by {
      assert (word + " " + token)[..6] == word[..6];
    }
  }

  /** Conversely, an accepted header is exactly a first word starting with
      `Bearer`, one space and the configured key, and neither part holds a
      space. */
  lemma AuthorizeOnlyAccepts(auth: string, key: Value)
    requires Authorize(Some(auth), key) == None
    ensures var tokens := Split(auth, " ");
      && |tokens| == 2 && StartsWith(auth, "Bearer")
      && auth == tokens[0] + " " + tokens[1]
      && key == Leaf(Str(tokens[1]))
      && ' ' !in tokens[0] && ' ' !in tokens[1]
  {
    var tokens := Split(auth, " ");
    JoinSplit(auth, " ");
    SplitCharPieces(auth, ' ');
    assert tokens[0] in tokens && tokens[1] in tokens;
  }

  /** The views of the weather a path can select. */
  datatype View = All | ForecastView | HourlyView | OutlookView | SpotterView

  /** Where a path leads. */
  datatype Target = NoPath | Favicon | Weather(view: View) | InvalidPath

  /** The route of the first remaining path segment. */
  function TargetOf(segment: string): (t: Target)
    ensures t.Weather? <==> segment in {"all", "forecast", "hourly", "hwo", "spotter"}
    ensures t == Favicon <==> segment == "favicon.ico"
    ensures t != NoPath
  {
    if segment == "favicon.ico" then Favicon
    else if segment == "all" then Weather(All)
    else if segment == "forecast" then Weather(ForecastView)
    else if segment == "hourly" then Weather(HourlyView)
    else if segment == "hwo" then Weather(OutlookView)
    else if segment == "spotter" then Weather(SpotterView)
    else InvalidPath
  }

  /** The view each of the five names selects. */
  lemma TargetTable()
    ensures TargetOf("all") == Weather(All)
    ensures TargetOf("forecast") == Weather(ForecastView)
    ensures TargetOf("hourly") == Weather(HourlyView)
    ensures TargetOf("hwo") == Weather(OutlookView)
    ensures TargetOf("spotter") == Weather(SpotterView)
  {
  }

  /** The path split on `/` with the part before the first `/` dropped,
      then routed by its segments. */
  function Route(path: string): (r: Outcome<Target>)
  {
    RouteSegments(Split(path, "/")[1..])
  }

  /** One leading `api` and then one leading `weather` segment removed; no
      segment left is a missing path. With no segment at all there is
      nothing to test against `api` and indexing raises IndexError. */
  function RouteSegments(paths: seq<string>): (r: Outcome<Target>)
    ensures r.Raise? <==> paths == []
    ensures r.Raise? ==> r.error == IndexError
  {
    if |paths| == 0 then Raise(IndexError)
    else
      var afterApi := if paths[0] == "api" then paths[1..] else paths;
      var afterWeather := if |afterApi| > 0 && afterApi[0] == "weather" then afterApi[1..] else afterApi;
      if |afterWeather| == 0 then Return(NoPath) else Return(TargetOf(afterWeather[0]))
  }

  /** The optional prefixes at the level of segments. */
  lemma RouteSegmentsPrefixes(segment: string, more: seq<string>)
    requires segment != "api" && segment != "weather"
    ensures var t := Return(TargetOf(segment));
      && RouteSegments([segment] + more) == t
      && RouteSegments(["weather"] + ([segment] + more)) == t
      && RouteSegments(["api"] + ([segment] + more)) == t
      && RouteSegments(["api", "weather"] + ([segment] + more)) == t
  {
    assert ["weather"] + ([segment] + more) == ["weather", segment] + more;
    assert ["api"] + ([segment] + more) == ["api", segment] + more;
    assert ["api", "weather"] + ([segment] + more) == ["api", "weather", segment] + more;
    assert (["weather", segment] + more)[1..] == [segment] + more;
    assert (["api", segment] + more)[1..] == [segment] + more;
    assert (["api", "weather", segment] + more)[1..] == ["weather", segment] + more;
    assert (["api", "weather", segment] + more)[1..][1..] == [segment] + more;
  }

  /** Routing raises exactly when the path holds no `/`. */
  lemma RouteRaises(path: string)
    ensures Route(path).Raise? <==> '/' !in path
  {
    SplitOnePiece(path, "/");
    if '/' in path {
      var i :| 0 <= i < |path| && path[i] == '/';
      assert path[i..i + 1] == "/";
      assert OccursAt(path, "/", i);
    }
    if Contains(path, "/") {
      var i :| 0 <= i <= |path| - 1 && OccursAt(path, "/", i);
      assert path[i..i + 1] == [path[i]];
    }
  }

  /** A leading segment without `/` splits off as the first piece. */
  lemma SplitSlash(p: string, s: string)
    requires '/' !in p
    ensures Split(p + "/" + s, "/") == [p] + Split(s, "/")
  {
    SplitCharHead(p, s, '/');
  }

  /** The `api` and `weather` prefixes are optional: `/s/rest`,
      `/weather/s/rest`, `/api/s/rest` and `/api/weather/s/rest` reach the
      same target, chosen by the segment `s` alone. */
  lemma RoutePrefixes(segment: string, rest: string)
    requires '/' !in segment && segment != "api" && segment != "weather"
    ensures var t, tail := Return(TargetOf(segment)), segment + "/" + rest;
      && Route("/" + tail) == t
      && Route("/weather/" + tail) == t
      && Route("/api/" + tail) == t
      && Route("/api/weather/" + tail) == t
  {
    var more := Split(rest, "/");
    var tail := segment + "/" + rest;
    SplitSlash(segment, rest);
    assert Split(tail, "/") == [segment] + more;
    RouteSegmentsPrefixes(segment, more);
    RoutePlain(tail, [segment] + more);
    RoutePrefixed(tail, [segment] + more);
  }

  lemma RoutePlain(tail: string, pieces: seq<string>)
    requires Split(tail, "/") == pieces
    ensures Route("/" + tail) == RouteSegments(pieces)
    ensures Route("/weather/" + tail) == RouteSegments(["weather"] + pieces)
  {
    KnownPrefixes();
    RouteAfterSlash(tail);
    RouteUnder("weather", "/weather/", tail);
  }

  lemma RoutePrefixed(tail: string, pieces: seq<string>)
    requires Split(tail, "/") == pieces
    ensures Route("/api/" + tail) == RouteSegments(["api"] + pieces)
    ensures Route("/api/weather/" + tail) == RouteSegments(["api", "weather"] + pieces)
  {
    KnownPrefixes();
    RouteUnder("api", "/api/", tail);
    RouteApiWeather(tail);
  }

  /** A path is routed by the segments after its first `/`. */
  lemma RouteAfterSlash(x: string)
    ensures Route("/" + x) == RouteSegments(Split(x, "/"))
  {
    SplitSlash("", x);
    assert "" + "/" + x == "/" + x;
    assert ([""] + Split(x, "/"))[1..] == Split(x, "/");
  }

  /** A path of a first segment without `/`, a `/` and the rest is
      routed by that segment and the pieces of the rest. */
  lemma RouteTwo(a: string, tail: string)
    requires '/' !in a
    ensures Route("/" + a + "/" + tail) == RouteSegments([a] + Split(tail, "/"))
  {
    var x := a + "/" + tail;
    Regroup("/", a, "/", tail);
    RouteAfterSlash(x);
    SplitSlash(a, tail);
  }

  lemma Regroup(p: string, q: string, r: string, t: string)
    ensures p + q + r + t == p + (q + r + t)
  {
  }

  /** A path under the prefix `/segment/` is routed by that segment and
      the pieces of the rest. */
  lemma RouteUnder(segment: string, prefix: string, tail: string)
    requires '/' !in segment && prefix == "/" + segment + "/"
    ensures Route(prefix + tail) == RouteSegments([segment] + Split(tail, "/"))
  {
    RouteTwo(segment, tail);
    SegmentPath(segment, prefix, tail);
  }

  /** The two optional prefixes are single segments between slashes. */
  lemma KnownPrefixes()
    ensures '/' !in "api" && "/api/" == "/" + "api" + "/"
    ensures '/' !in "weather" && "/weather/" == "/" + "weather" + "/"
  {
  }

  /** `prefix` is `/`, a segment and `/`. */
  lemma SegmentPath(segment: string, prefix: string, tail: string)
    requires prefix == "/" + segment + "/"
    ensures "/" + segment + "/" + tail == prefix + tail
  {
  }

  lemma RouteApiWeather(tail: string)
    ensures Route("/api/weather/" + tail) == RouteSegments(["api", "weather"] + Split(tail, "/"))
  {
    var w := "weather" + "/" + tail;
    KnownPrefixes();
    RouteUnder("api", "/api/", w);
    ApiWeatherPath(tail);
    SplitSlash("weather", tail);
    assert ["api"] + (["weather"] + Split(tail, "/")) == ["api", "weather"] + Split(tail, "/");
  }

  lemma ApiWeatherPath(tail: string)
    ensures "/api/" + ("weather" + "/" + tail) == "/api/weather/" + tail
  {
  }

  /** `/api`, `/weather` and `/api/weather` name no view (400 for no path);
      `/` names the empty segment (400 for an invalid path). */
  lemma RouteBare()
    ensures Route("/api") == Return(NoPath)
    ensures Route("/api/weather") == Return(NoPath)
    ensures Route("/weather") == Return(NoPath)
    ensures Route("/") == Return(InvalidPath)
  {
    RouteBareApi();
    RouteBareApiWeather();
    RouteBareWeather();
    RouteBareSlash();
  }

  lemma RouteBareApi()
    ensures Route("/api") == Return(NoPath)
  {
    RouteSingle("api");
    assert "/" + "api" == "/api";
  }

  lemma RouteBareWeather()
    ensures Route("/weather") == Return(NoPath)
  {
    RouteSingle("weather");
    assert "/" + "weather" == "/weather";
  }

  lemma RouteBareSlash()
    ensures Route("/") == Return(InvalidPath)
  {
    RouteSingle("");
    assert "/" + "" == "/";
  }

  lemma RouteBareApiWeather()
    ensures Route("/api/weather") == Return(NoPath)
  {
    RouteApiSingle("weather");
    assert "/api/" + "weather" == "/api/weather";
  }

  /** `/` followed by one segment. */
  lemma RouteSingle(segment: string)
    requires '/' !in segment
    ensures Route("/" + segment) == RouteSegments([segment])
  {
    SplitWithoutChar(segment, '/');
    RouteAfterSlash(segment);
  }

  /** `/api/weather`. */
  lemma RouteApiSingle(segment: string)
    requires '/' !in segment
    ensures Route("/api/" + segment) == RouteSegments(["api", segment])
  {
    SplitWithoutChar(segment, '/');
    KnownPrefixes();
    RouteUnder("api", "/api/", segment);
  }

  // ---------------------------------------------------------------------
  // The spotter view

  /** What a weather route sends for the reply of `get_weather`: the
      selected part of a served bundle; after a refusal, `null` on `all`
      and TypeError on the other views, which index `None`; on `spotter`
      the spotter statements, or the exception of collecting them. */
  function Answer(view: View, reply: Outcome<WeatherReply>): (r: Handled)
    ensures reply.Raise? ==> r == Handled([], Some(reply.error))
    ensures reply.Return? && reply.value.Refused? ==>
      && |r.sent| >= 1 && r.sent[0] == reply.value.response
      && (r.raised.None? <==> view == All)
      && (view == All ==> r.sent == [reply.value.response, Response(200, NullJson)])
      && (view != All ==> r == Handled([reply.value.response], Some(TypeError)))
    ensures reply.Return? && reply.value.Served? ==>
      && |r.sent| <= 1
      && (forall i :: 0 <= i < |r.sent| ==> r.sent[i].status == 200)
      && (r.raised.None? <==>
            view != SpotterView
            || (reply.value.bundle.hwo.Some? && Spotters(reply.value.bundle.hwo.value).Return?))
    ensures reply.Return? && reply.value.Served? && view == SpotterView && r.raised.None? ==>
      r.sent == [Response(200, SpotterJson(Spotters(reply.value.bundle.hwo.value).value))]
    ensures reply.Return? && reply.value.Served? && view == ForecastView ==>
      r.sent == [Response(200, ForecastJson(reply.value.bundle.forecast))]
    ensures reply.Return? && reply.value.Served? && view == HourlyView ==>
      r.sent == [Response(200, ForecastJson(reply.value.bundle.hourly))]
    ensures reply.Return? && reply.value.Served? && view == All ==>
      r.sent == [Response(200, BundleJson(reply.value.bundle))]
    ensures reply.Return? && reply.value.Served? && view == OutlookView ==>
      r.sent == [Response(200, OutlookJson(reply.value.bundle.hwo))]
  {
    match reply
    case Raise(e) => Handled([], Some(e))
    case Return(Refused(response)) =>
      if view == All then Handled([response, Response(200, NullJson)], None)
      else Handled([response], Some(TypeError))
    case Return(Served(bundle)) =>
      match view
      case All => Handled([Response(200, BundleJson(bundle))], None)
      case ForecastView => Handled([Response(200, ForecastJson(bundle.forecast))], None)
      case HourlyView => Handled([Response(200, ForecastJson(bundle.hourly))], None)
      case OutlookView => Handled([Response(200, OutlookJson(bundle.hwo))], None)
      case SpotterView =>
        if bundle.hwo.None? then Handled([], Some(TypeError))
        else
          match Spotters(bundle.hwo.value)
          case Raise(e) => Handled([], Some(e))
          case Return(spotters) => Handled([Response(200, SpotterJson(spotters))], None)
  }


  /** `[item['spotter'] for item in hwo]`, raising KeyError at the first
      entry without a spotter statement. */
  function Spotters(entries: seq<Hwo.Entry>): (r: Outcome<seq<string>>)
    ensures r.Return? <==> forall i :: 0 <= i < |entries| ==> entries[i].spotter.Some?
    ensures r.Raise? ==> r.error == KeyError
    ensures r.Return? ==>
      |r.value| == |entries| && forall i :: 0 <= i < |entries| ==> r.value[i] == entries[i].spotter.value
  {
    if entries == [] then Return([])
    else if entries[0].spotter.None? then Raise(KeyError)
    else
      match Spotters(entries[1..])
      case Raise(e) => Raise(e)
      case Return(rest) => Return([entries[0].spotter.value] + rest)
  }

  /** The loop of the spotter route. */
  method CollectSpotters(entries: seq<Hwo.Entry>) returns (r: Outcome<seq<string>>)
    ensures r == Spotters(entries)
  {
    var spotter: seq<string> := [];
    for i := 0 to |entries|
      invariant |spotter| == i
      invariant forall j :: 0 <= j < i ==> entries[j].spotter.Some? && spotter[j] == entries[j].spotter.value
    {
      if entries[i].spotter.None? {
        return Raise(KeyError);
      }
      spotter := spotter + [entries[i].spotter.value];
    }
    assert Spotters(entries).Return?;
    assert Spotters(entries).value == spotter;
    return Return(spotter);
  }
}
