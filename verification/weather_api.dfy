/**
  The decision logic of the weather service in app.py: the theme chosen for an
  OpenWeather condition code, the day/night test, the order in which
  `fetch_weather_and_forecast` makes its two upstream requests and raises, and
  how `/api/weather` validates its query and maps each failure to a status.
  The upstream HTTP exchanges are inputs: each either yields a status code or
  fails at the connection level.
 */
module WeatherApi {
  import opened Wrappers
  import opened Forecast

  datatype Theme = Thunderstorm | Rain | Snow | Fog | ClearDay | ClearNight | Clouds | DefaultTheme

  /** The theme key sent to the page (which applies it as the class `theme-<key>`). */
  function ThemeKey(t: Theme): string {
    match t
    case Thunderstorm => "thunderstorm"
    case Rain => "rain"
    case Snow => "snow"
    case Fog => "fog"
    case ClearDay => "clear-day"
    case ClearNight => "clear-night"
    case Clouds => "clouds"
    case DefaultTheme => "default"
  }

  /** `infer_theme`: the ranges compared in order. */
  function InferTheme(conditionId: int, isDay: bool): (t: Theme)
    ensures t == ClearDay || t == ClearNight <==> conditionId == 800
    ensures t == ClearDay <==> conditionId == 800 && isDay
    ensures t == DefaultTheme <==> conditionId < 200 || conditionId >= 900
  {
    if 200 <= conditionId < 300 then Thunderstorm
    else if 300 <= conditionId < 600 then Rain
    else if 600 <= conditionId < 700 then Snow
    else if 700 <= conditionId < 800 then Fog
    else if conditionId == 800 then (if isDay then ClearDay else ClearNight)
    else if 801 <= conditionId < 900 then Clouds
    else DefaultTheme
  }

  /**
    OpenWeather's condition groups, read off the hundreds digit: 2xx thunderstorm,
    3xx-5xx drizzle and rain, 6xx snow, 7xx atmosphere, 800 clear, 80x clouds.
   */
  function ThemeOfGroup(conditionId: int, isDay: bool): Theme {
    if conditionId < 200 || conditionId >= 900 then DefaultTheme
    else
      var group := conditionId / 100;
      if group == 2 then Thunderstorm
      else if group <= 5 then Rain
      else if group == 6 then Snow
      else if group == 7 then Fog
      else if conditionId % 100 == 0 then (if isDay then ClearDay else ClearNight)
      else Clouds
  }

  /** The range tests of `infer_theme` pick the theme of the code's condition group. */
  lemma {:induction false} InferThemeFollowsGroups(conditionId: int, isDay: bool)
    ensures InferTheme(conditionId, isDay) == ThemeOfGroup(conditionId, isDay)
  {
    if 200 <= conditionId < 900 {
      var group := conditionId / 100;
      assert group * 100 <= conditionId < group * 100 + 100;
    }
  }

  /** Only the clear-sky code 800 depends on whether it is day. */
  lemma {:induction false} OnlyClearSkyDependsOnDaylight(conditionId: int)
    ensures InferTheme(conditionId, true) != InferTheme(conditionId, false) <==> conditionId == 800
  {
  }

  /** The condition code used when the observation carries none. */
  const DefaultConditionId: int := 800

  /**
    The day test of the fetch: sunrise <= now <= sunset, compared after shifting all three by
    the city's offset; the shift never changes the answer.
   */
  function IsDaytime(sunriseUtc: int, nowUtc: int, sunsetUtc: int, offset: int): (r: bool)
    ensures r <==> sunriseUtc <= nowUtc <= sunsetUtc
  {
    var sunrise, now, sunset := sunriseUtc + offset, nowUtc + offset, sunsetUtc + offset;
    sunrise <= now <= sunset
  }

  /** What one upstream request came back with. */
  datatype HttpReply = Reply(status: int) | ConnectionFailed

  /** `raise_for_status` raises for client and server errors. */
  predicate IsHttpError(status: int) {
    400 <= status < 600
  }

  /** The current-weather fields read; absent when a required key is missing. */
  datatype Observation = Observation(dt: int, sunrise: int, sunset: int,
                                     timezone: Option<int>, conditionId: Option<int>)

  /** Everything the upstream service answers to one fetch. */
  datatype Upstream = Upstream(current: HttpReply, currentBody: Option<Observation>,
                               forecast: HttpReply, forecastList: seq<Sample>)

  /** Where the weather is asked for. */
  datatype Location = ByCity(q: string) | ByCoordinates(lat: Option<real>, lon: Option<real>)

  /** The query parameters of each upstream request. */
  datatype Query = Query(appid: string, units: string, location: Location)

  datatype FetchError = CityNotFound | RequestFailed | Unexpected

  datatype Meta = Meta(theme: Theme, isDay: bool)
  datatype Payload = Payload(timezoneOffset: int, meta: Meta, forecastDaily: seq<DaySummary>)

  /** The requests made, in order, and the payload or the exception raised. */
  datatype FetchRun = FetchRun(requests: seq<Query>, result: Result<Payload, FetchError>)

  /**
    Truthiness of an optional string, the same in Python and in JavaScript:
    present and non-empty.
   */
  predicate Truthy(s: Option<string>) {
    s.Some? && |s.value| > 0
  }

  /** A non-empty city takes precedence over coordinates. */
  function LocationOf(city: Option<string>, lat: Option<real>, lon: Option<real>): (loc: Location)
    ensures Truthy(city) ==> loc == ByCity(city.value)
    ensures !Truthy(city) ==> loc == ByCoordinates(lat, lon)
  {
    if Truthy(city) then ByCity(city.value) else ByCoordinates(lat, lon)
  }

  /**
    `fetch_weather_and_forecast`: the current-weather request (404 is "city not
    found", another error status or a connection failure is a request error),
    then the forecast request (any error status, 404 included, is a request
    error), then the payload, whose missing keys are unexpected errors. The
    forecast request is made only once the current one succeeded.
   */
  function FetchWeatherAndForecast(apiKey: string, city: Option<string>, lat: Option<real>,
                                   lon: Option<real>, up: Upstream): (run: FetchRun)
    ensures 1 <= |run.requests| <= 2
    ensures forall k :: 0 <= k < |run.requests| ==>
              run.requests[k] == Query(apiKey, "metric", LocationOf(city, lat, lon))
    ensures |run.requests| == 2 <==> up.current.Reply? && !IsHttpError(up.current.status)
    ensures run.result == Err(CityNotFound) <==> up.current == Reply(404)
    ensures run.result.Ok? <==>
              && up.current.Reply? && !IsHttpError(up.current.status)
              && up.forecast.Reply? && !IsHttpError(up.forecast.status)
              && up.currentBody.Some?
    ensures run.result.Ok? ==>
              var offset := up.currentBody.value.timezone.GetOr(0);
              && run.result.value.timezoneOffset == offset
              && run.result.value.forecastDaily == ForecastSummaries(up.forecastList, offset, UtcToday(up.forecastList))
  {
    var query := Query(apiKey, "metric", LocationOf(city, lat, lon));
    match up.current
    case ConnectionFailed => FetchRun([query], Err(RequestFailed))
    case Reply(status) =>
      if status == 404 then FetchRun([query], Err(CityNotFound))
      else if IsHttpError(status) then FetchRun([query], Err(RequestFailed))
      else
        match up.forecast
        case ConnectionFailed => FetchRun([query, query], Err(RequestFailed))
        case Reply(fstatus) =>
          if IsHttpError(fstatus) then FetchRun([query, query], Err(RequestFailed))
          else
            match up.currentBody
            case None => FetchRun([query, query], Err(Unexpected))
            case Some(obs) =>
              var offset := obs.timezone.GetOr(0);
              var isDay := IsDaytime(obs.sunrise, obs.dt, obs.sunset, offset);
              var theme := InferTheme(obs.conditionId.GetOr(DefaultConditionId), isDay);
              var daily := ForecastSummaries(up.forecastList, offset, UtcToday(up.forecastList));
              FetchRun([query, query], Ok(Payload(offset, Meta(theme, isDay), daily)))
  }

  /** The JSON body of a response of `/api/weather`. */
  datatype Body = ErrorBody(error: string, details: Option<string>) | WeatherBody(payload: Payload)

  datatype Response = Response(status: int, body: Body)

  const MissingKeyError: string := "Server API key is not configured."
  const MissingLocationError: string := "Missing location parameters."
  const NetworkError: string := "Network error while contacting weather service."
  const CityNotFoundError: string := "City not found. Please check the spelling and try again."
  const UnexpectedError: string := "Unexpected server error."

  /** Each exception of the fetch and the status it is answered with. */
  function StatusOf(e: FetchError): int {
    match e
    case CityNotFound => 404
    case RequestFailed => 502
    case Unexpected => 500
  }

  function ErrorBodyOf(e: FetchError): Body {
    match e
    case CityNotFound => ErrorBody(CityNotFoundError, None)
    case RequestFailed => ErrorBody(NetworkError, Some("Please try again in a moment."))
    case Unexpected => ErrorBody(UnexpectedError, Some("The weather service failed. Please try again later."))
  }

  /** The location check: a non-empty city, or both coordinates. */
  predicate HasLocation(city: Option<string>, lat: Option<real>, lon: Option<real>) {
    Truthy(city) || (lat.Some? && lon.Some?)
  }

  /**
    `/api/weather`: a missing API key is answered 500 before anything else; then a
    request with neither a non-empty city nor both coordinates is answered 400;
    otherwise the fetch runs and its exceptions map to 404, 502 and 500.
    `lat` and `lon` are the query values as floats, absent when missing or not
    numeric.
   */
  function ApiWeather(apiKey: Option<string>, city: Option<string>, lat: Option<real>,
                      lon: Option<real>, up: Upstream): (r: Response)
    ensures !Truthy(apiKey) ==> r.status == 500 && r.body.ErrorBody? && r.body.error == MissingKeyError
    ensures Truthy(apiKey) && !HasLocation(city, lat, lon) ==>
              r.status == 400 && r.body.ErrorBody? && r.body.error == MissingLocationError
    ensures r.status == 200 <==> r.body.WeatherBody?
    ensures r.status in {200, 400, 404, 500, 502}
    ensures Truthy(apiKey) && HasLocation(city, lat, lon) ==>
              var run := FetchWeatherAndForecast(apiKey.value, city, lat, lon, up);
              run.result.Ok? ==> r.body == WeatherBody(run.result.value)
    ensures r.status == 404 ==> r.body == ErrorBody(CityNotFoundError, None)
    ensures r.status == 502 ==> r.body.ErrorBody? && r.body.error == NetworkError
    ensures Truthy(apiKey) && r.status == 500 ==> r.body.ErrorBody? && r.body.error == UnexpectedError
  {
    if !Truthy(apiKey) then
      Response(500, ErrorBody(MissingKeyError,
                              Some("Set the OPENWEATHER_API_KEY environment variable on the server.")))
    else if !HasLocation(city, lat, lon) then
      Response(400, ErrorBody(MissingLocationError,
                              Some("Provide either a city name or latitude and longitude.")))
    else
      match FetchWeatherAndForecast(apiKey.value, city, lat, lon, up).result
      case Ok(payload) => Response(200, WeatherBody(payload))
      case Err(e) => Response(StatusOf(e), ErrorBodyOf(e))
  }

  /**
    With a key and a location, the status says exactly what went wrong upstream:
    404 iff the current-weather request answered 404; 502 iff a request failed
    otherwise; 500 iff the upstream answered but the payload lacked a key; 200
    iff everything succeeded.
   */
  lemma {:induction false} StatusMapping(apiKey: Option<string>, city: Option<string>, lat: Option<real>,
                                         lon: Option<real>, up: Upstream)
    requires Truthy(apiKey) && HasLocation(city, lat, lon)
    ensures var r := ApiWeather(apiKey, city, lat, lon, up);
            var currentOk := up.current.Reply? && !IsHttpError(up.current.status);
            var forecastOk := up.forecast.Reply? && !IsHttpError(up.forecast.status);
            && (r.status == 404 <==> up.current == Reply(404))
            && (r.status == 502 <==> up.current != Reply(404) && (!currentOk || !forecastOk))
            && (r.status == 500 <==> currentOk && forecastOk && up.currentBody.None?)
            && (r.status == 200 <==> currentOk && forecastOk && up.currentBody.Some?)
  {
  }

  /**
    The payload of a successful answer: the condition's theme by day and night, a
    missing condition code counting as clear sky; the body's offset (0 when
    missing); and the forecast summaries of the samples, skipping the UTC date of
    the first one.
   */
  lemma {:induction false} SuccessfulThemeFollowsCondition(apiKey: Option<string>, city: Option<string>,
                                                            lat: Option<real>, lon: Option<real>, up: Upstream)
    requires ApiWeather(apiKey, city, lat, lon, up).status == 200
    ensures up.currentBody.Some?
    ensures var obs := up.currentBody.value;
            var p := ApiWeather(apiKey, city, lat, lon, up).body.payload;
            && p.meta.isDay == (obs.sunrise <= obs.dt <= obs.sunset)
            && p.meta.theme == ThemeOfGroup(obs.conditionId.GetOr(800), p.meta.isDay)
            && (obs.conditionId.None? ==> p.meta.theme == (if p.meta.isDay then ClearDay else ClearNight))
            && p.timezoneOffset == obs.timezone.GetOr(0)
            && p.forecastDaily == ForecastSummaries(up.forecastList, obs.timezone.GetOr(0), UtcToday(up.forecastList))
  {
    var obs := up.currentBody.value;
    var p := ApiWeather(apiKey, city, lat, lon, up).body.payload;
    InferThemeFollowsGroups(obs.conditionId.GetOr(800), p.meta.isDay);
  }
}
