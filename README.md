# Weather gateway — a Dafny model

This project models the core of a small HTTP gateway to the National Weather
Service API. Clients POST a JSON payload with coordinates and/or a city and
state, authenticated by a bearer token. The gateway resolves the location to
a forecast office and grid through five in-memory caches, fetches the
regular and hourly forecasts and the Hazardous Weather Outlook, keeps the
result for five minutes, and answers one of the views `all`, `forecast`,
`hourly`, `hwo` or `spotter`.

The model is split into these modules:

- `PyStr` (pystr.dfy): the Python string operations the code relies on, with
  Python's semantics. These are `split` on a separator, `join`, `strip`,
  `lower`, `startswith`, `replace` and `str(int)`.
- `PyValue` (pyvalue.dfy): JSON/YAML scalars and values, and `Outcome`. An
  `Outcome` is either a returned value or a raised exception (`KeyError`,
  `IndexError`, `TypeError`, `ValueError`, or the HTTP error of
  `raise_for_status`).
- `Config` (config.dfy): `load` applied to a supplied dictionary, which
  fills in the `server` section in place; and `set_log_level`.
- `Hwo` (hwo.dfy): the outlook text parser of `Forecast.get_hwo`. It is a
  line state machine with a line counter, a mode, a buffer and an
  `additional` slot. It is given once as functions (`Step`, `Run`,
  `ItemResult`, `Items`) and once as the loops of the source (`ParseItem`,
  `ParseLine`, `ParseItems`). The loops are proved equal to the functions.
- `Forecast` (forecast.dfy): the `Forecast` class with its fields, `get_point`,
  `get_office_info`, `get_forecast`, `get_forecast_hourly` and `get_hwo`. The
  upstream endpoints are the functions of an `Api` value, and each of them
  may raise.
- `Server` (server.dfy): the five module-level caches as the fields of class
  `Caches`. It holds `get_location_info`, `get_location_grid`,
  `refresh_weather`, `parse_payload`, `get_weather` with its five-minute
  cache, and `do_POST` with the token check and the path router.

The model follows the code as written, including behaviour its comments do
not intend:

- `parse_payload` (server.py:205, 215) unpacks the cached `{"city", "state"}`
  dictionary into `x, y`. On that path the "grid" is therefore
  `("city", "state")`, the dictionary's two keys. `ParsePayload` returns
  exactly that.
- `result < 0` (server.py:209) compares a bool with 0, which is never true.
  A failed lookup therefore goes on to `locations[state][city]` and raises
  `KeyError`.
- `send_status_code` (server.py:281) always writes `"error": 400` in the
  body, whatever the status. It writes no body at all without a message.
  The `Body` datatype records only the message.
- After `get_weather` has refused a request, the `all` route sends `null`
  (a second response). Every other weather route indexes `None` and raises
  `TypeError`.
- The token check only asks that the header starts with `Bearer` and splits
  into two parts on single spaces. A header such as `Bearerx key` is
  accepted (`AuthorizeAccepts`).
- A bundle is refreshed only when it is strictly older than 300 seconds.

## Model

| member | source | states |
|---|---|---|
| PyStr.JoinSplit | forecast.py:291-296 | joining the pieces of `s.split(sep)` with `sep` gives `s` back |
| Config.ServerWithDefaults | config.py:88-100 | address and port become the defaults when missing or `None`, key becomes `None` when missing, every other entry is kept, and no other key is added |
| Config.WithDefaults | config.py:88-102 | a dictionary `server` section becomes `ServerWithDefaults` of it and every other top-level entry is kept; a non-dictionary `server` raises `TypeError`; no `server` section gives the full default section |
| Config.ServerDefaultsIdempotent | config.py:88-102 | defaulting an already defaulted section changes nothing |
| Config.DefaultsComplete | config.py:88-102 | after defaulting, the server section has a non-`None` address and port and a key entry |
| Config.Load | config.py:68-124 | the dictionary passed in is defaulted in place and is the very object returned; on `TypeError` it is left unchanged |
| Config.LogLevelTable | config.py:50-63 | the five level names map to DEBUG/INFO/WARNING/ERROR/CRITICAL, and any other name maps to INFO |
| Config.LogLevelIgnoresCase | config.py:50-63 | a name and its lower-case form select the same level |
| Config.LogLevelDistinct | config.py:50-63 | distinct known names select distinct levels |
| Config.RootLogger.SetLogLevel | config.py:50-65 | the root logger's level becomes the level the table gives for the name |
| Hwo.ParseItem | forecast.py:247-376 | the line loop of one item returns the dictionary of the specification run (`ItemResult`), stopping at `break` and propagating exceptions |
| Hwo.ParseLine | forecast.py:254-373 | one pass of the loop body equals the specification step `Step` |
| Hwo.DispatchLine | forecast.py:282-373 | the line-number and header chain equals `Dispatch` |
| Hwo.BodyLine | forecast.py:327-373 | the header, terminator and buffer branches equal `BodyStep` |
| Hwo.ParseItems | forecast.py:246-378 | the item loop returns `Items`: the non-empty dictionaries in item order, or the first exception |
| Hwo.OfficeNameSplit | forecast.py:289-296 | the state is the last space-free piece of line 2; city, a space and state rebuild the line without its prefix |
| Hwo.DateTextDropsZone | forecast.py:320-322 | for `HHMM AM ZONE rest` exactly the time-zone token is removed |
| Hwo.MismatchStopsItem | forecast.py:301-309 | with a known office city and state and `include_all` false, an item naming another office stops at line 2 with an empty dictionary |
| Hwo.MismatchNotAppended | forecast.py:301-309 | such an item adds nothing to the result list |
| Hwo.RunAppend | forecast.py:253-376 | no line after the one that stops or raises is read |
| Hwo.PlainLinesCollected | forecast.py:369-373 | plain lines are appended followed by a space in county/affected/spotter modes and by a newline in day-one/days-two-seven/storm-motion modes |
| Hwo.BlankLine | forecast.py:256-280 | the blank-line cases: counties stored past line 4, affected areas stored, spotter stored only from a non-empty buffer, otherwise the line is skipped |
| Hwo.DaysHeader | forecast.py:332-344 | the days-two-seven header commits day one only from day-one mode with a non-empty buffer, and raises `IndexError` without ` through ` |
| Hwo.SpotterHeader | forecast.py:346-352 | the spotter header commits days two to seven exactly after that mode and starts spotter mode |
| Hwo.Terminator | forecast.py:357-367 | `$$` or `&&` ends the item, storing the storm motion only in storm-motion mode |
| Hwo.EntrySectionsShaped | forecast.py:330-349 | every result's `day1.period` is text and `day27.period` a start/end pair |
| Hwo.ItemsNonEmpty | forecast.py:375-376 | at most one result per item, and never an empty one |
| Forecast.OfficeLocationRaises | forecast.py:115-118 | the office-name split raises `IndexError` exactly when the name holds no `", "` |
| Forecast.OfficeLocationParts | forecast.py:115-118 | `"City, ST"` yields the stripped city and state |
| Forecast.OfficeLocationRoundTrip | forecast.py:115-118 | already-stripped parts round-trip through the split |
| Forecast.NormalisePeriod | forecast.py:190-198 | the period's fields renamed and grouped, with precipitation 0 in place of null and never null |
| Forecast.NormalisePeriods | forecast.py:189-200 | one normalised record per upstream period, in order |
| Forecast.FetchedPeriods | forecast.py:179-200 | a fetched forecast keeps every period's name and never carries a null precipitation |
| Forecast.OutlookEntriesNonEmpty | forecast.py:375-378 | every entry of a returned outlook is non-empty |
| Forecast.Forecast.constructor | forecast.py:29-47 | all fields empty except the office taken from the configuration |
| Forecast.Forecast.GetPoint | forecast.py:49-88 | -1 without coordinates; otherwise office, grid, city and state from the point response, and the reference coordinates swapped to (lat, lon); the upstream error or `IndexError` propagates |
| Forecast.Forecast.GetOfficeInfo | forecast.py:90-120 | -1 without an office; otherwise office city and state from the split name; the city is stored before a missing second half raises |
| Forecast.Forecast.StoreOfficeLocation | forecast.py:115-120 | the two stores and the `IndexError` of `get_office_info` |
| Forecast.Forecast.GetForecast | forecast.py:127-202 | with the office and the grid each given or stored, in every combination, the result is the normalised upstream forecast; `None` when neither an office nor coordinates are known |
| Forecast.Forecast.GetForecastHourly | forecast.py:204-211 | every case of `get_forecast`, with the hourly endpoint |
| Forecast.Forecast.GetHwo | forecast.py:213-378 | `None` without office or coordinates; without an office, the point lookup's exception (upstream error or `IndexError`) propagates, a point without office gives `None`, and otherwise the outlook of the point's office; with an office, its parsed outlook; all entries non-empty |
| Server.Put | server.py:71-113 | a nested write: the inner dictionary is created when missing and every other entry is kept |
| Server.RecordTwice | server.py:81-109 | creating both outer levels and then writing both entries equals two nested writes |
| Server.LocationGrid | server.py:118-139 | `get_location_grid` finds a grid exactly when both lookups succeed, and that grid is `locations[state][city]` for the recorded city and state |
| Server.LocationGridIntKeys | server.py:128-131 | an integer coordinate is looked up under its decimal text, and distinct integers never collide |
| Server.LocationGridAfterRecord | server.py:71-139 | after `get_location_info` records a point, `get_location_grid` of the user's coordinates finds its grid |
| Server.CityLookup | server.py:192 | `locations[state][city]` and `offices[state][city]` hit exactly when both payload values are strings present in the cache, and then give the cached entry |
| Server.Recorded | server.py:68-113 | after the writes of `get_location_info`, the user's coordinates hold the point's city and state and resolve to its grid |
| Server.LocationInfo | server.py:50-115 | `True` exactly when the point has at least two coordinates and an office and the office name is fetched and splits; `False` exactly for a point without office; the point's, the office name's and the split's exceptions propagate, and fewer than two coordinates raise `IndexError`; on success the four caches gain exactly the documented entries and the user's coordinates resolve to the grid; otherwise nothing is written |
| Server.Caches.GetLocationInfo | server.py:50-115 | the result and the four caches are those of `LocationInfo`; `weather_info` is untouched |
| Server.Caches.Record | server.py:68-113 | the writes of `get_location_info`, grouped by map |
| Server.StaleBoundary | server.py:459 | `Stale` holds exactly when the bundle is strictly more than 300 seconds old: 300 seconds is still fresh, 301 is stale, and a bundle stamped now is fresh |
| Server.RefreshedBundle | server.py:142-177 | a refresh gives a bundle only when both forecasts were fetched and the office is cached; it holds those forecasts, the outlook for that office and the current time; a missing office gives `None` |
| Server.Caches.FetchBundle | server.py:150-173 | the fetches of `refresh_weather` yield `Refreshed` |
| Server.Caches.RefreshWeather | server.py:142-177 | the bundle is stored under office, x, y only when every fetch succeeded, and a missing x level raises `KeyError`; other caches unchanged |
| Server.WithLevels | server.py:438-445 | the office and x levels exist afterwards; a level created here is empty; everything that existed is kept |
| Server.ParseResult | server.py:180-244 | the caches change only through `get_location_info` for the payload's coordinates; with a city and state the result is never `-1` (`result < 0` never holds); without them it is never `None` (the `return None` after a successful lookup is unreachable) |
| Server.ParseFromCache | server.py:187-244 | city and state from the cache, else `None` without coordinates, else the `("city", "state")` pair from a cached coordinate; otherwise `-1` without both coordinates, or the cached grid with its city and state; no cache changes |
| Server.ParseCoordinatesFill | server.py:225-244 | uncached coordinates: the lookup's exception propagates, a point without office gives `-1`, and a successful lookup gives the point's grid, city and state with the filled caches |
| Server.ParseCityFill | server.py:204-213 | uncached city, state and coordinates: the lookup's exception propagates, a point without office raises `KeyError` (the `result < 0` test never catches it), and a lookup recording the same city and state gives the point's grid |
| Server.Caches.ParsePayload | server.py:180-244 | the result and the four caches are those of `ParseResult`; `weather_info` is untouched |
| Server.WeatherFor | server.py:438-466 | an unknown office raises `KeyError` with nothing changed; otherwise the office and x levels are created, a cached bundle that is not stale is served unchanged without a refresh, and a missing or stale one goes to `RefreshReply`; a served bundle is never stale |
| Server.RefreshReply | server.py:450-464 | a fetched bundle is served exactly when `refresh_weather` returns one, and it is that bundle, stamped now and stored under office, x, y; its exception propagates; `None` is answered with 400 "Unable to obtain weather information…" and `weather_info` is unchanged |
| Server.Caches.WeatherAt | server.py:438-466 | the source's two refresh branches give the result and `weather_info` of `WeatherFor`; the location caches are untouched |
| Server.Caches.RefreshAt | server.py:450-464 | a refresh with `None` answered by 400 gives `RefreshReply` |
| Server.Respond | server.py:418-466 | a parsed location is answered by `WeatherFor` with its `weather_info`; otherwise `weather_info` is unchanged; `None` and a TypeError inside `parse_payload` give 404, `-1` gives 400 "Invalid parameters", other exceptions propagate; the caches are those parsing leaves; no city/state and missing coordinates give 400, and an unknown city/state without coordinates gives 404 |
| Server.Caches.GetWeather | server.py:418-466 | the result, the caches and `weather_info` are those of `Respond` |
| Server.Answer | server.py:385-407 | an exception propagates with nothing sent; a refusal is sent first, then `null` on `all` and `TypeError` on the other views; a served bundle sends one 200 response with the whole bundle on `all`, the forecast, the hourly forecast or the outlook on those views, and the spotter statements on `spotter`, failing exactly without an outlook or with an entry lacking one |
| Server.Caches.DoPost | server.py:318-412 | rejections in the order token, length (`MAX_LEN` 128), JSON, path; on a weather route, `Answer` for the reply of `Respond`, with the caches it leaves |
| Server.Authorize | server.py:320-346 | no header gives 403 "Missing token"; with a header every rejection is 400: "Invalid token format" when it does not start with `Bearer` or does not split into two parts, "Bad token" when the second part is not the key |
| Server.AuthorizeAccepts | server.py:331-346 | every `Bearer...` word, one space and the configured key is accepted |
| Server.AuthorizeOnlyAccepts | server.py:331-346 | an accepted header is exactly a `Bearer...` word, one space and the key |
| Server.TargetOf | server.py:376-412 | the first remaining segment selects favicon, one of the five views, or an invalid path |
| Server.TargetTable | server.py:385-407 | `all`, `forecast`, `hourly`, `hwo` and `spotter` select the whole bundle, the forecast, the hourly forecast, the outlook and the spotter views |
| Server.RouteSegments | server.py:365-378 | routing raises `IndexError` exactly when there are no segments |
| Server.RouteRaises | server.py:365-367 | a path raises exactly when it holds no `/` |
| Server.RoutePrefixes | server.py:364-373 | the `api` and `weather` prefixes are optional and do not change the target |
| Server.RouteBare | server.py:365-378 | `/api`, `/weather` and `/api/weather` are "no path", and `/` is an invalid path |
| Server.Spotters | server.py:404-406 | the spotter statements in order, or `KeyError` at the first entry without one |
| Server.CollectSpotters | server.py:404-406 | the spotter loop returns `Spotters` |

## Left out

- Network access: HTTP requests, `raise_for_status` and JSON decoding of responses become the functions of `Forecast.Api`. Their results are the fields the code reads.
- HTML extraction with BeautifulSoup and `splitlines`: the outlook endpoint yields each `<pre>` item as its list of lines.
- `datetime.strptime(...).isoformat()`: a parameter of the parser context, which may raise.
- `time.time()`: the request's `now` is a parameter, read once. The source reads the clock once per refresh, after the upstream fetches, to stamp the bundle (server.py:171), and once more for the staleness test (server.py:457). The model stamps a refreshed bundle with the request's `now`. A bundle refreshed after a stale one therefore expires in the model earlier than in the source, by the length of the fetches. The model also does not capture a bundle fetched on a miss turning stale before the test, which the source allows only when the fetches take more than 300 seconds.
- HTTP plumbing (`send_response`, headers, `wfile`, `do_GET`, the `Server` constructor, `reload`): responses are recorded as status and body.
- The request's JSON decoding: only a body that decodes to a JSON object whose members are scalars is modelled, given as that object. `None` means the body does not decode (the 400 "JSON decoding error"). A body that decodes to `null`, a list, a string or a number, or an object with list or object members, is left out. In the source these can raise `TypeError` inside `parse_payload`, for example at server.py:188 or server.py:192, and `get_weather` catches it at server.py:425-432.
- `int(Content-Length)`: given as a value or the exception it raises.
- YAML files, environment variables, `setup_logging` and the `logging` section of `load`: file and process I/O.
- `main.py` and concurrency: the server is modelled one request at a time.
- PyStr.Lower: only ASCII letters are lowered, because the compared names are ASCII.
- Python's equality of `1` and `1.0` as dictionary keys is not modelled: scalars compare by type and value.
- `Forecast.load` and the `weather` field: nothing in the modelled core calls them.
- Server.Caches.Record: groups the writes by map rather than in source order. The maps are independent, and the empty leaf dictionaries created first are overwritten before anything reads them.
- Forecast.Forecast.constructor: takes the configuration reduced to its `office` entry, the only entry read.
