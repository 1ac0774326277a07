/**
 * The weather client: the records it produces, the requests it builds and
 * how it turns the geocoding and forecast replies into records or errors.
 * An HTTP exchange is a function from the request's parameters to a `Reply`
 * holding the already-decoded JSON body, so no network is modelled.
 */
module Api {
  import opened Wrappers
  import opened Text

  datatype Location = Location(name: string, latitude: real, longitude: real, country: Option<string>)

  datatype CurrentWeather = CurrentWeather(temperature: real, windspeed: real, winddirection: real, weathercode: int)

  datatype DailyForecastDay = DailyForecastDay(date: string, tempMax: real, tempMin: real, precipSum: real)

  datatype Forecast = Forecast(location: Location, current: CurrentWeather, daily: seq<DailyForecastDay>)

  /** What made the client raise `ApiError`. */
  datatype ApiFailure =
    | RequestFailed            // the transport raised a request exception
    | HttpStatus(status: int)  // the reply's status was not ok
    | MissingCurrentWeather    // the forecast reply had no (or an empty) `current_weather`

  /** The exception kinds the client can raise. */
  datatype Error =
    | ApiError(failure: ApiFailure)
    | NotFound(query: string)  // the ValueError raised when geocoding finds nothing
    | KeyError(key: string)    // a required field of a JSON object is missing
    | IndexError               // a daily series is shorter than the `time` series

  /** One HTTP exchange: either the transport failed, or a status and the decoded body came back. */
  datatype Reply<B> = TransportFailure | Response(ok: bool, status: int, body: B)

  /** Python truthiness of an optional string: present and non-empty. */
  predicate Present(s: Option<string>) {
    s.Some? && s.value != ""
  }

  // ---------------------------------------------------------------- geocoding

  datatype GeoQuery = GeoQuery(name: string, count: int, language: string, format: string, country: Option<string>)

  /** The fields of one entry of `results`; `None` is a missing key. */
  datatype GeoResult = GeoResult(name: Option<string>, latitude: Option<real>, longitude: Option<real>, country: Option<string>)

  /** The geocoding reply body; `results` may be missing. */
  datatype GeoBody = GeoBody(results: Option<seq<GeoResult>>)

  /** The query parameters of a geocoding request for `name`. */
  function GeocodeQuery(name: string, country: Option<string>): (q: GeoQuery)
    ensures q.name == name && q.count == 1 && q.language == "en" && q.format == "json"
    ensures q.country.Some? <==> Present(country)
    ensures q.country.Some? ==> q.country == country
  {
    GeoQuery(name, 1, "en", "json", if Present(country) then country else None)
  }

  /** `geocode_city`: one lookup, then the error selection and the first result's fields. */
  function GeocodeCity(name: string, country: Option<string>, get: GeoQuery -> Reply<GeoBody>): (r: Result<Location, Error>)
    ensures var reply := get(GeocodeQuery(name, country));
      // transport and status failures are API errors, decided before the body is read
      && (reply.TransportFailure? ==> r == Failure(ApiError(RequestFailed)))
      && (reply.Response? && !reply.ok ==> r == Failure(ApiError(HttpStatus(reply.status))))
      && (r.Failure? && r.error.ApiError? ==> reply.TransportFailure? || !reply.ok)
      // an ok reply without results is "not found", naming the queried city
      && (reply.Response? && reply.ok ==>
            ((r.Failure? && r.error.NotFound?) <==> (reply.body.results.None? || reply.body.results.value == [])))
      && (r.Failure? && r.error.NotFound? ==> r.error.query == name)
      // the first result must carry both coordinates, latitude read first
      && (reply.Response? && reply.ok && reply.body.results.Some? && |reply.body.results.value| > 0 ==>
            var first := reply.body.results.value[0];
            && (r.Success? <==> first.latitude.Some? && first.longitude.Some?)
            && (first.latitude.None? ==> r == Failure(KeyError("latitude")))
            && (first.latitude.Some? && first.longitude.None? ==> r == Failure(KeyError("longitude"))))
      // a success is built from the first result
      && (r.Success? ==>
            reply.Response? && reply.ok && reply.body.results.Some? && |reply.body.results.value| > 0 &&
            var first := reply.body.results.value[0];
            && Some(r.value.latitude) == first.latitude
            && Some(r.value.longitude) == first.longitude
            && r.value.country == first.country
            && r.value.name == (if first.name.Some? then first.name.value else name))
  {
    match get(GeocodeQuery(name, country))
    case TransportFailure => Failure(ApiError(RequestFailed))
    case Response(ok, status, body) =>
      if !ok then Failure(ApiError(HttpStatus(status)))
      else if body.results.None? || body.results.value == [] then Failure(NotFound(name))
      else
        var first := body.results.value[0];
        if first.latitude.None? then Failure(KeyError("latitude"))
        else if first.longitude.None? then Failure(KeyError("longitude"))
        else Success(Location(
          if first.name.Some? then first.name.value else name,
          first.latitude.value, first.longitude.value, first.country))
  }

  /** A non-ok geocoding reply fails the same way whatever its body holds. */
  lemma GeocodeStatusBeforeBody(name: string, country: Option<string>, get1: GeoQuery -> Reply<GeoBody>, get2: GeoQuery -> Reply<GeoBody>)
    requires var q := GeocodeQuery(name, country);
      get1(q).Response? && get2(q).Response? && !get1(q).ok && !get2(q).ok && get1(q).status == get2(q).status
    ensures GeocodeCity(name, country, get1) == GeocodeCity(name, country, get2)
    ensures GeocodeCity(name, country, get1).Failure? && GeocodeCity(name, country, get1).error.ApiError?
  {
  }

  // ----------------------------------------------------------------- forecast

  const MinDays := 1
  const MaxDays := 7
  const DailySeries := "temperature_2m_max,temperature_2m_min,precipitation_sum"

  datatype ForecastQuery = ForecastQuery(
    latitude: real, longitude: real, currentWeather: string, daily: string, timezone: string, forecastDays: int)

  /** The `current_weather` object: the four keys read, and how many other keys it has. */
  datatype CurrentBlock = CurrentBlock(
    temperature: Option<real>, windspeed: Option<real>, winddirection: Option<real>, weathercode: Option<int>,
    otherKeys: nat)

  /** The `daily` object: the four series read; a missing key is `None`. */
  datatype DailyBlock = DailyBlock(
    time: Option<seq<string>>, temperature2mMax: Option<seq<real>>, temperature2mMin: Option<seq<real>>,
    precipitationSum: Option<seq<real>>)

  datatype ForecastBody = ForecastBody(currentWeather: Option<CurrentBlock>, daily: Option<DailyBlock>)

  /** The day count actually requested: `days` clamped into [MinDays, MaxDays]. */
  function ClampDays(days: int): (d: int)
    ensures MinDays <= d <= MaxDays
    ensures MinDays <= days <= MaxDays ==> d == days
    ensures days < MinDays ==> d == MinDays
    ensures days > MaxDays ==> d == MaxDays
  {
    if days < MinDays then MinDays else if days > MaxDays then MaxDays else days
  }

  /** The query parameters of a forecast request for `days` days at `location`. */
  function ForecastParams(location: Location, days: int): (q: ForecastQuery)
    ensures q.latitude == location.latitude && q.longitude == location.longitude
    ensures q.forecastDays == days
    ensures q.currentWeather == "true" && q.timezone == "auto" && q.daily == DailySeries
  {
    ForecastQuery(location.latitude, location.longitude, "true", DailySeries, "auto", days)
  }

  /**
   * Python falsiness of the `current_weather` value: missing, or an empty
   * object.  A present object counts as missing only when it has no key at
   * all, so a missing block is also one the conditions could not be read from.
   */
  predicate MissingBlock(b: Option<CurrentBlock>): (m: bool)
    ensures b.None? ==> m
    ensures b == Some(CurrentBlock(None, None, None, None, 0)) ==> m
    ensures (b.Some? && (b.value.temperature.Some? || b.value.windspeed.Some? || b.value.winddirection.Some? ||
                         b.value.weathercode.Some? || b.value.otherKeys > 0)) ==> !m
    ensures m && b.Some? ==> CurrentFromBlock(b.value) == Failure(KeyError("temperature"))
  {
    b.None? ||
    (b.value.temperature.None? && b.value.windspeed.None? && b.value.winddirection.None? &&
     b.value.weathercode.None? && b.value.otherKeys == 0)
  }

  /** The current conditions read from a present `current_weather` object, key by key. */
  function CurrentFromBlock(b: CurrentBlock): (r: Result<CurrentWeather, Error>)
    ensures r.Success? <==>
      b.temperature.Some? && b.windspeed.Some? && b.winddirection.Some? && b.weathercode.Some?
    ensures r.Success? ==>
      Some(r.value.temperature) == b.temperature && Some(r.value.windspeed) == b.windspeed &&
      Some(r.value.winddirection) == b.winddirection && Some(r.value.weathercode) == b.weathercode
    ensures r.Failure? ==> r.error.KeyError?
  {
    if b.temperature.None? then Failure(KeyError("temperature"))
    else if b.windspeed.None? then Failure(KeyError("windspeed"))
    else if b.winddirection.None? then Failure(KeyError("winddirection"))
    else if b.weathercode.None? then Failure(KeyError("weathercode"))
    else Success(CurrentWeather(b.temperature.value, b.windspeed.value, b.winddirection.value, b.weathercode.value))
  }

  /** `d.get(key, [])` on a series. */
  function Series<T>(s: Option<seq<T>>): seq<T> {
    if s.Some? then s.value else []
  }

  /** The `daily` object after `data.get("daily") or {}`. */
  function DailyOrEmpty(d: Option<DailyBlock>): (b: DailyBlock)
    ensures d.Some? ==> b == d.value
    ensures d.None? ==> b == DailyBlock(None, None, None, None) && Series(b.time) == []
  {
    if d.Some? then d.value else DailyBlock(None, None, None, None)
  }

  function Min(a: int, b: int): int {
    if a < b then a else b
  }

  /** The first `n` daily entries, entry `i` built from index `i` of each series. */
  function BuildDays(times: seq<string>, tmax: seq<real>, tmin: seq<real>, rain: seq<real>, n: nat): (days: seq<DailyForecastDay>)
    requires n <= |times| && n <= |tmax| && n <= |tmin| && n <= |rain|
    ensures |days| == n
    ensures forall i :: 0 <= i < n ==> days[i] == DailyForecastDay(times[i], tmax[i], tmin[i], rain[i])
  {
    if n == 0 then [] else BuildDays(times, tmax, tmin, rain, n - 1) + [DailyForecastDay(times[n - 1], tmax[n - 1], tmin[n - 1], rain[n - 1])]
  }

  /** How many daily entries the client materialises: min(|time|, days), never negative. */
  function DayCount(times: seq<string>, days: int): (n: nat)
    ensures n <= |times| && (days >= 0 ==> n <= days)
    ensures days >= 0 ==> n == |times| || n == days
    ensures days < 0 ==> n == 0
  {
    if days < 0 then 0 else Min(|times|, days)
  }

  /**
   * What `fetch_forecast` returns or raises for a reply, once `days` is
   * clamped; the reference definition `FetchForecast` is proved against.
   */
  function ForecastFromReply(location: Location, days: int, reply: Reply<ForecastBody>): Result<Forecast, Error> {
    match reply
    case TransportFailure => Failure(ApiError(RequestFailed))
    case Response(ok, status, data) =>
      if !ok then Failure(ApiError(HttpStatus(status)))
      else if MissingBlock(data.currentWeather) then Failure(ApiError(MissingCurrentWeather))
      else match CurrentFromBlock(data.currentWeather.value)
        case Failure(e) => Failure(e)
        case Success(current) =>
          var daily := DailyOrEmpty(data.daily);
          var times, tmax, tmin, rain :=
            Series(daily.time), Series(daily.temperature2mMax), Series(daily.temperature2mMin), Series(daily.precipitationSum);
          var n := DayCount(times, days);
          if n <= |tmax| && n <= |tmin| && n <= |rain| then
            Success(Forecast(location, current, BuildDays(times, tmax, tmin, rain, n)))
          else Failure(IndexError)
  }

  /** `fetch_forecast`: clamp the day count, make one request, shape the reply. */
  method FetchForecast(location: Location, days: int, get: ForecastQuery -> Reply<ForecastBody>)
    returns (query: ForecastQuery, r: Result<Forecast, Error>)
    ensures query == ForecastParams(location, ClampDays(days))
    ensures r == ForecastFromReply(location, ClampDays(days), get(query))
  {
    var d := days;
    if d < MinDays {
      d := MinDays;
    }
    if d > MaxDays {
      d := MaxDays;
    }
    query := ForecastParams(location, d);
    var reply := get(query);
    if reply.TransportFailure? {
      return query, Failure(ApiError(RequestFailed));
    }
    if !reply.ok {
      return query, Failure(ApiError(HttpStatus(reply.status)));
    }
    var data := reply.body;
    if MissingBlock(data.currentWeather) {
      return query, Failure(ApiError(MissingCurrentWeather));
    }
    var current := CurrentFromBlock(data.currentWeather.value);
    if current.Failure? {
      return query, Failure(current.error);
    }
    var daily := DailyOrEmpty(data.daily);
    var times, tmax, tmin, rain :=
      Series(daily.time), Series(daily.temperature2mMax), Series(daily.temperature2mMin), Series(daily.precipitationSum);
    var daysList: seq<DailyForecastDay> := [];
    var n := Min(|times|, d);
    for i := 0 to n
      invariant i <= |tmax| && i <= |tmin| && i <= |rain|
      invariant daysList == BuildDays(times, tmax, tmin, rain, i)
    {
      if i >= |tmax| || i >= |tmin| || i >= |rain| {
        return query, Failure(IndexError);
      }
      daysList := daysList + [DailyForecastDay(times[i], tmax[i], tmin[i], rain[i])];
    }
    return query, Success(Forecast(location, current.value, daysList));
  }

  /** The request asks for the clamped day count, at the location's coordinates. */
  lemma ForecastRequestDays(location: Location, days: int)
    ensures var q := ForecastParams(location, ClampDays(days));
      && q.forecastDays == ClampDays(days)
      && (1 <= days <= 7 ==> q.forecastDays == days)
      && (days == 0 ==> q.forecastDays == 1)
      && (days == 10 ==> q.forecastDays == 7)
  {
  }

  /**
   * A forecast keeps the location it was asked for, and its daily list is the
   * first min(|time|, clamped days) entries of the series, in the provider's order.
   */
  lemma ForecastShape(location: Location, days: int, reply: Reply<ForecastBody>)
    requires ForecastFromReply(location, ClampDays(days), reply).Success?
    ensures var f := ForecastFromReply(location, ClampDays(days), reply).value;
      var daily := DailyOrEmpty(reply.body.daily);
      var times := Series(daily.time);
      && f.location == location
      && f.current == CurrentFromBlock(reply.body.currentWeather.value).value
      && |f.daily| == Min(|times|, ClampDays(days))
      && |f.daily| <= MaxDays
      && forall i :: 0 <= i < |f.daily| ==>
           f.daily[i] == DailyForecastDay(times[i], Series(daily.temperature2mMax)[i],
                                          Series(daily.temperature2mMin)[i], Series(daily.precipitationSum)[i])
  {
  }

  /**
   * The error kinds of a forecast: a failed exchange or a missing or empty
   * `current_weather` is an ApiError; a missing `daily` object is no error.
   */
  lemma ForecastErrors(location: Location, days: int, reply: Reply<ForecastBody>)
    ensures var r := ForecastFromReply(location, ClampDays(days), reply);
      && (reply.TransportFailure? ==> r == Failure(ApiError(RequestFailed)))
      && (reply.Response? && !reply.ok ==> r == Failure(ApiError(HttpStatus(reply.status))))
      && (reply.Response? && reply.ok && MissingBlock(reply.body.currentWeather) ==> r == Failure(ApiError(MissingCurrentWeather)))
      && (reply.Response? && reply.ok && reply.body.currentWeather == Some(CurrentBlock(None, None, None, None, 0)) ==>
            r == Failure(ApiError(MissingCurrentWeather)))
      && (r.Failure? && r.error.ApiError? ==> reply.TransportFailure? || !reply.ok || MissingBlock(reply.body.currentWeather))
      && ((reply.Response? && reply.ok && !MissingBlock(reply.body.currentWeather) &&
           CurrentFromBlock(reply.body.currentWeather.value).Failure?) ==>
            r == Failure(CurrentFromBlock(reply.body.currentWeather.value).error) && r.error.KeyError?)
      && ((reply.Response? && reply.ok && reply.body.daily.None? && !MissingBlock(reply.body.currentWeather) &&
           CurrentFromBlock(reply.body.currentWeather.value).Success?) ==> r.Success? && r.value.daily == [])
  {
  }

  /**
   * Once the current conditions are read, the only remaining error is an
   * IndexError, raised exactly when a temperature or precipitation series
   * (missing counts as empty) is shorter than the number of days read from `time`.
   */
  lemma ShortSeriesIsIndexError(location: Location, days: int, reply: Reply<ForecastBody>)
    requires reply.Response? && reply.ok && !MissingBlock(reply.body.currentWeather)
    requires CurrentFromBlock(reply.body.currentWeather.value).Success?
    ensures var daily := DailyOrEmpty(reply.body.daily);
      var n := DayCount(Series(daily.time), ClampDays(days));
      var r := ForecastFromReply(location, ClampDays(days), reply);
      && (r.Failure? ==> r.error == IndexError)
      && (r.Failure? <==>
            n > |Series(daily.temperature2mMax)| || n > |Series(daily.temperature2mMin)| || n > |Series(daily.precipitationSum)|)
  {
  }
}
