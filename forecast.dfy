/** The `Forecast` object of forecast.py: the fields it fills from the
    National Weather Service API, the office-name split, the forecast
    period normaliser and the Hazardous Weather Outlook fetch. The API
    itself is a parameter (`Api`), one function per endpoint, each of
    which may raise (`raise_for_status`). */
module Forecast {
  import opened PyValue
  import opened PyStr
  import Hwo

  /** The fields of a `/points/{LAT},{LON}` response that `get_point` reads.
      `cwa` may be JSON null. `coordinates` is the reference city's
      GeoJSON `[longitude, latitude]` list. */
  datatype PointData = PointData(
    cwa: Option<string>,
    gridX: Scalar,
    gridY: Scalar,
    city: string,
    state: string,
    coordinates: seq<Scalar>)

  /** One upstream forecast period; `precipitation` is the value of
      `probabilityOfPrecipitation`, `Null` when JSON null. */
  datatype Period = Period(
    name: string,
    startTime: string,
    endTime: string,
    isDaytime: bool,
    temperature: Scalar,
    temperatureUnit: string,
    precipitation: Scalar,
    windSpeed: string,
    windDirection: string,
    shortForecast: string,
    detailedForecast: string)

  /** The fields of a `/gridpoints/.../forecast` response that
      `get_forecast` reads. */
  datatype ForecastData = ForecastData(
    coordinates: Value,
    updateTime: string,
    generatedAt: string,
    periods: seq<Period>)

  datatype Temperature = Temperature(value: Scalar, unit: string)

  datatype Wind = Wind(speed: string, direction: string)

  /** The normalised record `get_forecast` emits for one period. */
  datatype PeriodInfo = PeriodInfo(
    period: string,
    start: string,
    end: string,
    daytime: bool,
    temperature: Temperature,
    precipitation: Scalar,
    wind: Wind,
    short: string,
    detailed: string)

  /** The dictionary `get_forecast` returns. */
  datatype ForecastDict = ForecastDict(
    coordinates: Value,
    updated: string,
    generated: string,
    forecast: seq<PeriodInfo>)

  /** The upstream services: the point, office, forecast and outlook
      endpoints, and the library date parser the outlook parser uses. The
      outlook endpoint yields the lines of each `<pre>` item. */
  datatype Api = Api(
    point: ((string, string)) -> Outcome<PointData>,
    officeName: string -> Outcome<string>,
    forecast: (string, string, string, bool) -> Outcome<ForecastData>,
    hwoItems: string -> Outcome<seq<seq<string>>>,
    parseDate: string -> Outcome<string>)

  /** `name.split(", ")`, then both halves stripped; a name without
      `", "` has no second half and indexing it raises IndexError. */
  function OfficeLocation(name: string): (r: Outcome<(string, string)>)
  {
    var cityState := Split(name, ", ");
    if |cityState| < 2 then Raise(IndexError)
    else Return((Strip(cityState[0]), Strip(cityState[1])))
  }

  /** The split raises exactly when the name holds no `", "`. */
  lemma OfficeLocationRaises(name: string)
    ensures OfficeLocation(name).Raise? <==> !Contains(name, ", ")
  {
    SplitOnePiece(name, ", ");
  }

  /** `"City, ST"` gives back the city and the state: for a city without
      `", "` the city is the stripped text before the first `", "` and the
      state the stripped text after it up to any further `", "`. */
  lemma OfficeLocationParts(city: string, state: string)
    requires !Contains(city, ", ") && !Contains(state, ", ")
    ensures OfficeLocation(city + ", " + state) == Return((Strip(city), Strip(state)))
  {
    CommaSpaceHead(city, state);
    SplitAbsent(state, ", ");
    assert Split(city + ", " + state, ", ") == [city, state];
  }

  /** A name written as `city + ", " + state` with both parts already
      stripped round-trips through the split. */
  lemma OfficeLocationRoundTrip(city: string, state: string)
    requires !Contains(city, ", ") && !Contains(state, ", ")
    requires Strip(city) == city && Strip(state) == state
    ensures OfficeLocation(city + ", " + state) == Return((city, state))
  {
    OfficeLocationParts(city, state);
  }

  /** One period made less verbose: the same fields, renamed and grouped,
      and a precipitation of 0 in place of JSON null. */
  function NormalisePeriod(p: Period): (r: PeriodInfo)
    ensures r.precipitation != Null
    ensures p.precipitation != Null ==> r.precipitation == p.precipitation
    ensures p.precipitation == Null ==> r.precipitation == Int(0)
    ensures r.(precipitation := p.precipitation) ==
      PeriodInfo(p.name, p.startTime, p.endTime, p.isDaytime,
                 Temperature(p.temperature, p.temperatureUnit), p.precipitation,
                 Wind(p.windSpeed, p.windDirection), p.shortForecast, p.detailedForecast)
  {
    var info := PeriodInfo(p.name, p.startTime, p.endTime, p.isDaytime,
                           Temperature(p.temperature, p.temperatureUnit), Int(0),
                           Wind(p.windSpeed, p.windDirection), p.shortForecast, p.detailedForecast);
    if p.precipitation != Null then info.(precipitation := p.precipitation) else info
  }

  /** The loop of `get_forecast` over the upstream periods: one record per
      period, in upstream order. */
  method NormalisePeriods(periods: seq<Period>) returns (r: seq<PeriodInfo>)
    ensures |r| == |periods|
    ensures forall i :: 0 <= i < |periods| ==> r[i] == NormalisePeriod(periods[i])
  {
    r := [];
    for i := 0 to |periods|
      invariant |r| == i
      invariant forall j :: 0 <= j < i ==> r[j] == NormalisePeriod(periods[j])
    {
      r := r + [NormalisePeriod(periods[i])];
    }
  }

  /** What `get_forecast` returns once the office and grid are known:
      the upstream error, or the normalised forecast. */
  function FetchForecast(api: Api, office: string, grid: (Scalar, Scalar), hourly: bool): (r: Outcome<Option<ForecastDict>>)
    ensures r.Return? ==> r.value.Some?
    ensures r.Raise? <==> api.forecast(office, StrOf(grid.0), StrOf(grid.1), hourly).Raise?
  {
    match api.forecast(office, StrOf(grid.0), StrOf(grid.1), hourly)
    case Raise(e) => Raise(e)
    case Return(d) =>
      Return(Some(ForecastDict(d.coordinates, d.updateTime, d.generatedAt,
                               seq(|d.periods|, i requires 0 <= i < |d.periods| => NormalisePeriod(d.periods[i])))))
  }

  /** A fetched forecast holds one record per upstream period and never a
      null precipitation. */
  lemma FetchedPeriods(api: Api, office: string, grid: (Scalar, Scalar), hourly: bool)
    requires api.forecast(office, StrOf(grid.0), StrOf(grid.1), hourly).Return?
    ensures var d := api.forecast(office, StrOf(grid.0), StrOf(grid.1), hourly).value;
      var r := FetchForecast(api, office, grid, hourly);
      && r.Return? && r.value.Some?
      && |r.value.value.forecast| == |d.periods|
      && forall i :: 0 <= i < |d.periods| ==>
           r.value.value.forecast[i].period == d.periods[i].name
           && r.value.value.forecast[i].precipitation != Null
  {
  }

  /** What `get_hwo` returns once the office is known. */
  function OutlookOf(api: Api, office: string, officeCity: Option<string>, officeState: Option<string>,
                     includeAll: bool): Outcome<Option<seq<Hwo.Entry>>>
  {
    match api.hwoItems(office)
    case Raise(e) => Raise(e)
    case Return(items) =>
      match Hwo.Items(items, Hwo.Context(officeCity, officeState, includeAll, api.parseDate))
      case Raise(e) => Raise(e)
      case Return(data) => Return(Some(data))
  }

  /** Every entry of an outlook is non-empty. */
  lemma OutlookEntriesNonEmpty(api: Api, office: string, officeCity: Option<string>,
                               officeState: Option<string>, includeAll: bool)
    ensures var r := OutlookOf(api, office, officeCity, officeState, includeAll);
      r.Return? && r.value.Some? ==> forall e :: e in r.value.value ==> !Hwo.IsEmpty(e)
  {
    match api.hwoItems(office)
    case Raise(_) =>
    case Return(items) =>
      Hwo.ItemsNonEmpty(items, Hwo.Context(officeCity, officeState, includeAll, api.parseDate));
  }

  /** A `Forecast` object: the coordinates asked for, the reference city's
      coordinates, the grid, the responsible office and its city and state,
      and the reference city and state. `None` stands for both Python's
      `None` and the empty tuple. */
  class Forecast {
    var latLon: Option<(string, string)>
    var cityLatLon: Option<(Scalar, Scalar)>
    var grid: Option<(Scalar, Scalar)>
    var office: Option<string>
    var officeCity: Option<string>
    var officeState: Option<string>
    var city: Option<string>
    var state: Option<string>

    /** `Forecast(config)`: `configOffice` is `config['office']` when that
        key is present and not `None`. */
    constructor (configOffice: Option<string>)
      ensures latLon == None && cityLatLon == None && grid == None
      ensures office == configOffice
      ensures officeCity == None && officeState == None && city == None && state == None
    {
      latLon := None;
      cityLatLon := None;
      grid := None;
      office := configOffice;
      officeCity := None;
      officeState := None;
      city := None;
      state := None;
    }

    /** `get_point(lat_lon)`: -1 when no coordinates are known; otherwise
        the office, grid, city and state from the point response, then the
        reference coordinates swapped into (latitude, longitude) order. */
    method GetPoint(api: Api, given: Option<(string, string)>) returns (r: Outcome<int>)
      modifies this
      ensures latLon == (if given.Some? then given else old(latLon))
      ensures officeCity == old(officeCity) && officeState == old(officeState)
      ensures latLon.None? ==>
        r == Return(-1) && office == old(office) && grid == old(grid) && city == old(city)
        && state == old(state) && cityLatLon == old(cityLatLon)
      ensures latLon.Some? && api.point(latLon.value).Raise? ==>
        r == Raise(api.point(latLon.value).error) && office == old(office) && grid == old(grid)
        && city == old(city) && state == old(state) && cityLatLon == old(cityLatLon)
      ensures latLon.Some? && api.point(latLon.value).Return? ==>
        var d := api.point(latLon.value).value;
        && office == d.cwa && grid == Some((d.gridX, d.gridY))
        && city == Some(d.city) && state == Some(d.state)
        && (if |d.coordinates| < 2 then r == Raise(IndexError) && cityLatLon == old(cityLatLon)
            else r == Return(0) && cityLatLon == Some((d.coordinates[1], d.coordinates[0])))
    {
      if given.Some? {
        latLon := given;
      }
      if latLon.None? {
        return Return(-1);
      }
      var response := api.point(latLon.value);
      if response.Raise? {
        return Raise(response.error);
      }
      var data := response.value;
      office := data.cwa;
      grid := Some((data.gridX, data.gridY));
      city := Some(data.city);
      state := Some(data.state);
      if |data.coordinates| < 2 {
        return Raise(IndexError);
      }
      cityLatLon := Some((data.coordinates[1], data.coordinates[0]));
      return Return(0);
    }

    /** `get_office_info(office)`: -1 without a request when no office is
        known; otherwise the office city and state from the office name.
        The city is stored before the missing second half raises. */
    method GetOfficeInfo(api: Api, newOffice: Option<string>) returns (r: Outcome<int>)
      modifies this
      ensures office == (if newOffice.Some? then newOffice else old(office))
      ensures latLon == old(latLon) && cityLatLon == old(cityLatLon) && grid == old(grid)
      ensures city == old(city) && state == old(state)
      ensures office.None? ==>
        r == Return(-1) && officeCity == old(officeCity) && officeState == old(officeState)
      ensures office.Some? && api.officeName(office.value).Raise? ==>
        r == Raise(api.officeName(office.value).error)
        && officeCity == old(officeCity) && officeState == old(officeState)
      ensures office.Some? && api.officeName(office.value).Return? ==>
        var name := api.officeName(office.value).value;
        && officeCity == Some(Strip(Split(name, ", ")[0]))
        && (OfficeLocation(name).Raise? ==> r == Raise(IndexError) && officeState == old(officeState))
        && (OfficeLocation(name).Return? ==>
              r == Return(0) && (officeCity, officeState) == (Some(OfficeLocation(name).value.0), Some(OfficeLocation(name).value.1)))
    {
      if newOffice.Some? {
        office := newOffice;
      }
      if office.None? {
        return Return(-1);
      }
      var response := api.officeName(office.value);
      if response.Raise? {
        return Raise(response.error);
      }
      r := StoreOfficeLocation(response.value);
    }

    /** The split of the office name and the two stores of
        `get_office_info`: the city is stored before indexing the missing
        second half raises. */
    method StoreOfficeLocation(name: string) returns (r: Outcome<int>)
      modifies this
      ensures office == old(office) && latLon == old(latLon) && cityLatLon == old(cityLatLon)
      ensures grid == old(grid) && city == old(city) && state == old(state)
      ensures officeCity == Some(Strip(Split(name, ", ")[0]))
      ensures OfficeLocation(name).Raise? ==> r == Raise(IndexError) && officeState == old(officeState)
      ensures OfficeLocation(name).Return? ==>
        r == Return(0) && officeCity == Some(OfficeLocation(name).value.0)
        && officeState == Some(OfficeLocation(name).value.1)
    {
      var cityState := Split(name, ", ");
      assert OfficeLocation(name) ==
        if |cityState| < 2 then Raise(IndexError) else Return((Strip(cityState[0]), Strip(cityState[1])));
      officeCity := Some(Strip(cityState[0]));
      if |cityState| < 2 {
        return Raise(IndexError);
      }
      officeState := Some(Strip(cityState[1]));
      return Return(0);
    }

    /** `get_forecast(gridXY, office, hourly)`: an office and grid that are
        not given are taken from the object, calling `get_point` when it
        has none; `None` when `get_point` has no coordinates to go on. */
    method GetForecast(api: Api, gridXY: Option<(Scalar, Scalar)>, givenOffice: Option<string>, hourly: bool)
      returns (r: Outcome<Option<ForecastDict>>)
      modifies this
      ensures officeCity == old(officeCity) && officeState == old(officeState)
      ensures givenOffice.Some? && gridXY.Some? ==>
        r == FetchForecast(api, givenOffice.value, gridXY.value, hourly)
        && office == old(office) && grid == old(grid) && latLon == old(latLon)
        && city == old(city) && state == old(state) && cityLatLon == old(cityLatLon)
      ensures givenOffice.Some? && gridXY.None? && old(grid).Some? ==>
        r == FetchForecast(api, givenOffice.value, old(grid).value, hourly)
      ensures givenOffice.None? && old(office).Some? && gridXY.Some? ==>
        r == FetchForecast(api, old(office).value, gridXY.value, hourly)
      ensures givenOffice.None? && old(office).Some? && gridXY.None? && old(grid).Some? ==>
        r == FetchForecast(api, old(office).value, old(grid).value, hourly)
      ensures givenOffice.None? && old(office).None? && old(latLon).None? ==> r == Return(None)
    {
      var off := givenOffice;
      if off.None? {
        off := office;
        if off.None? {
          var result := GetPoint(api, None);
          if result.Raise? {
            return Raise(result.error);
          }
          if result.value < 0 {
            return Return(None);
          }
          off := office;
        }
      }
      var xy: (Scalar, Scalar);
      if gridXY.None? && grid.Some? {
        xy := grid.value;
      } else if gridXY.Some? {
        xy := gridXY.value;
      } else {
        var result := GetPoint(api, None);
        if result.Raise? {
          return Raise(result.error);
        }
        if result.value < 0 {
          return Return(None);
        }
        xy := grid.value;
      }
      if off.None? {
        // `url.replace("{OFFICE}", None)`
        return Raise(TypeError);
      }
      var response := api.forecast(off.value, StrOf(xy.0), StrOf(xy.1), hourly);
      if response.Raise? {
        return Raise(response.error);
      }
      var data := response.value;
      var periods := NormalisePeriods(data.periods);
      assert periods == seq(|data.periods|, i requires 0 <= i < |data.periods| => NormalisePeriod(data.periods[i]));
      return Return(Some(ForecastDict(data.coordinates, data.updateTime, data.generatedAt, periods)));
    }

    /** `get_forecast_hourly(gridXY, office)` */
    method GetForecastHourly(api: Api, gridXY: Option<(Scalar, Scalar)>, givenOffice: Option<string>)
      returns (r: Outcome<Option<ForecastDict>>)
      modifies this
      ensures officeCity == old(officeCity) && officeState == old(officeState)
      ensures givenOffice.Some? && gridXY.Some? ==>
        r == FetchForecast(api, givenOffice.value, gridXY.value, true)
        && office == old(office) && grid == old(grid) && latLon == old(latLon)
        && city == old(city) && state == old(state) && cityLatLon == old(cityLatLon)
      ensures givenOffice.Some? && gridXY.None? && old(grid).Some? ==>
        r == FetchForecast(api, givenOffice.value, old(grid).value, true)
      ensures givenOffice.None? && old(office).Some? && gridXY.Some? ==>
        r == FetchForecast(api, old(office).value, gridXY.value, true)
      ensures givenOffice.None? && old(office).Some? && gridXY.None? && old(grid).Some? ==>
        r == FetchForecast(api, old(office).value, old(grid).value, true)
      ensures givenOffice.None? && old(office).None? && old(latLon).None? ==> r == Return(None)
    {
      r := GetForecast(api, gridXY, givenOffice, true);
    }

    /** `get_hwo(include_all)`: `None` when neither an office nor
        coordinates to find one are known; otherwise the parsed outlook of
        the office, matched against the office city and state. */
    method GetHwo(api: Api, includeAll: bool) returns (r: Outcome<Option<seq<Hwo.Entry>>>)
      modifies this
      ensures officeCity == old(officeCity) && officeState == old(officeState)
      ensures old(office).Some? ==>
        r == OutlookOf(api, old(office).value, officeCity, officeState, includeAll)
        && office == old(office) && grid == old(grid) && latLon == old(latLon)
        && city == old(city) && state == old(state) && cityLatLon == old(cityLatLon)
      ensures old(office).None? && old(latLon).None? ==> r == Return(None)
      ensures old(office).None? && old(latLon).Some? ==>
        var p := api.point(old(latLon).value);
        && (p.Raise? ==> r == Raise(p.error))
        && (p.Return? && |p.value.coordinates| < 2 ==> r == Raise(IndexError))
        && (p.Return? && |p.value.coordinates| >= 2 && p.value.cwa.None? ==> r == Return(None))
        && (p.Return? && |p.value.coordinates| >= 2 && p.value.cwa.Some? ==>
              r == OutlookOf(api, p.value.cwa.value, officeCity, officeState, includeAll))
      ensures r.Return? && r.value.Some? ==> forall e :: e in r.value.value ==> !Hwo.IsEmpty(e)
    {
      if office.None? {
        if latLon.None? {
          return Return(None);
        }
        var found := GetPoint(api, latLon);
        if found.Raise? {
          return Raise(found.error);
        }
        if office.None? {
          return Return(None);
        }
      }
      var items := api.hwoItems(office.value);
      if items.Raise? {
        return Raise(items.error);
      }
      var ctx := Hwo.Context(officeCity, officeState, includeAll, api.parseDate);
      var data := Hwo.ParseItems(items.value, ctx);
      OutlookEntriesNonEmpty(api, office.value, officeCity, officeState, includeAll);
      if data.Raise? {
        return Raise(data.error);
      }
      return Return(Some(data.value));
    }
  }
}
