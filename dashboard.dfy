/**
 * `WeatherDashboard`: the state it keeps between button presses (the last
 * current-conditions payload and the last forecast payload), the fetch
 * that updates it step by step, and `save_data`, which reads it.
 *
 * The two HTTP responses are inputs: one for the current-conditions
 * endpoint and one for the forecast endpoint. A ghost trace records which
 * requests the fetch issued, so that "no forecast request" can be stated.
 */
module Dashboard {
  import opened Json
  import opened Text
  import opened Forecast
  import opened Display
  import opened Charts
  import opened Snapshot

  /** What `requests.get` produced: a response with a status code and the
      body as `json()` decodes it, or a request-level failure (connection
      refused, DNS, timeout) raised as a RequestException. */
  datatype Response = Response(status: int, payload: Json) | ConnectionFailure

  /** `raise_for_status()` raises HTTPError, a RequestException, exactly for
      client errors (4xx) and server errors (5xx). */
  predicate RaisesForStatus(status: int)
  {
    400 <= status < 600
  }

  /** A response the code takes the payload of. */
  predicate Delivers(r: Response)
  {
    r.Response? && !RaisesForStatus(r.status)
  }

  datatype Endpoint = CurrentWeather | ForecastWeather

  /** One `requests.get`, with the stripped city as the `q` parameter (the
      API key and `units=metric` are fixed and left out). */
  datatype Request = Request(endpoint: Endpoint, city: string)

  /** What the user is shown, as a tag: the error dialog that fires, or the
      refreshed display and charts. */
  datatype Outcome =
    | InputError       // "Please enter a city name!"
    | AuthError        // HTTP 401
    | CityNotFound     // HTTP 404
    | NetworkError     // any RequestException
    | UnexpectedError  // any other exception, while building the display or the charts
    | Success(display: Info, charts: Bundle)

  /** How the current-conditions response ends the fetch, if it does: a
      failed connection or a status `raise_for_status` rejects is a network
      error, except that 401 and 404 are recognised first. None when the
      payload is taken. */
  function CurrentFailure(current: Response): (e: Option<Outcome>)
    ensures e.None? <==> Delivers(current)
    ensures e.Some? ==> e.value in {NetworkError, AuthError, CityNotFound}
    ensures current.Response? && current.status == 401 ==> e == Some(AuthError)
    ensures current.Response? && current.status == 404 ==> e == Some(CityNotFound)
    ensures e == Some(NetworkError) <==>
      current.ConnectionFailure?
      || (RaisesForStatus(current.status) && current.status != 401 && current.status != 404)
  {
    match current
    case ConnectionFailure => Some(NetworkError)
    case Response(status, _) =>
      if status == 401 then Some(AuthError)
      else if status == 404 then Some(CityNotFound)
      else if RaisesForStatus(status) then Some(NetworkError)
      else None
  }

  /** `update_info()` followed by `create_visualizations()`, both reading
      the freshly stored payloads; None when either raises. The two views
      read the same payload: the temperature and feels-like shown in the
      labels are the first two wedges of the pie. */
  function Present(current: Json, forecast: Json): (r: Option<(Info, Bundle)>)
    ensures r.Some? <==> IsComplete(current) && Visualize(current, forecast).Some?
    ensures r.Some? ==>
      && |r.value.1.pie.values| == 4
      && r.value.0.temperature == r.value.1.pie.values[0]
      && r.value.0.feelsLike == r.value.1.pie.values[1]
  {
    match Normalize(current)
    case None => None
    case Some(d) =>
      match Visualize(current, forecast)
      case None => None
      case Some(c) => Some((d, c))
  }

  /** The two fields after a fetch, the requests it issued and its outcome. */
  datatype Fetched = Fetched(weather: Json, forecast: Json, issued: seq<Request>, outcome: Outcome)

  /** `fetch_weather` as a function of the old fields, the text typed into
      the city entry and the two responses. */
  function Fetch(weather: Json, forecast: Json, entry: string,
                 current: Response, forecastResponse: Response): (r: Fetched)
    // blank input is rejected before any request, and only blank input
    ensures r.outcome == InputError <==> AllSpace(entry)
    ensures r.issued == [] <==> AllSpace(entry)
    // the first request asks for current conditions of the stripped city;
    // the forecast request follows only a current response that delivered
    ensures |r.issued| <= 2
    ensures r.issued != [] ==> r.issued[0] == Request(CurrentWeather, Strip(entry))
    ensures |r.issued| == 2 <==> !AllSpace(entry) && Delivers(current)
    ensures |r.issued| == 2 ==> r.issued[1] == Request(ForecastWeather, Strip(entry))
    // each field is replaced by its own response's payload, or keeps its value
    ensures r.weather == if |r.issued| == 2 then current.payload else weather
    ensures r.forecast ==
      if |r.issued| == 2 && Delivers(forecastResponse) then forecastResponse.payload else forecast
    // success exactly when both payloads are stored and both views build from them
    ensures r.outcome.Success? <==>
      |r.issued| == 2 && Delivers(forecastResponse) && Present(r.weather, r.forecast).Some?
    ensures r.outcome.Success? ==>
      (r.outcome.display, r.outcome.charts) == Present(r.weather, r.forecast).value
  {
    var city := Strip(entry);
    if city == [] then Fetched(weather, forecast, [], InputError)
    else
      var once := [Request(CurrentWeather, city)];
      match CurrentFailure(current)
      case Some(e) => Fetched(weather, forecast, once, e)
      case None =>
        var twice := [Request(CurrentWeather, city), Request(ForecastWeather, city)];
        if !Delivers(forecastResponse) then Fetched(current.payload, forecast, twice, NetworkError)
        else
          var next := forecastResponse.payload;
          match Present(current.payload, next)
          case None => Fetched(current.payload, next, twice, UnexpectedError)
          case Some((d, c)) => Fetched(current.payload, next, twice, Success(d, c))
  }

  /** Empty or whitespace-only input: an input error, no request, nothing
      changed. */
  lemma BlankInputIssuesNothing(weather: Json, forecast: Json, entry: string,
                                current: Response, forecastResponse: Response)
    requires AllSpace(entry)
    ensures Fetch(weather, forecast, entry, current, forecastResponse)
            == Fetched(weather, forecast, [], InputError)
  {
  }

  /** A 401 is an authentication error: it is checked before 404 and before
      `raise_for_status`, no forecast is requested and nothing changes. */
  lemma UnauthorizedComesFirst(weather: Json, forecast: Json, entry: string,
                               payload: Json, forecastResponse: Response)
    requires !AllSpace(entry)
    ensures Fetch(weather, forecast, entry, Response(401, payload), forecastResponse)
            == Fetched(weather, forecast, [Request(CurrentWeather, Strip(entry))], AuthError)
  {
  }

  /** A 404 is "city not found": no forecast request, nothing changes. */
  lemma NotFoundStopsFetch(weather: Json, forecast: Json, entry: string,
                           payload: Json, forecastResponse: Response)
    requires !AllSpace(entry)
    ensures Fetch(weather, forecast, entry, Response(404, payload), forecastResponse)
            == Fetched(weather, forecast, [Request(CurrentWeather, Strip(entry))], CityNotFound)
  {
  }

  /** Any other 4xx or 5xx, or a failed connection, on the current request is
      a network error; no forecast request, nothing changes. */
  lemma CurrentFailureIsNetworkError(weather: Json, forecast: Json, entry: string,
                                     current: Response, forecastResponse: Response)
    requires !AllSpace(entry)
    requires current.ConnectionFailure?
             || (RaisesForStatus(current.status) && current.status != 401 && current.status != 404)
    ensures Fetch(weather, forecast, entry, current, forecastResponse)
            == Fetched(weather, forecast, [Request(CurrentWeather, Strip(entry))], NetworkError)
  {
  }

  /** Whatever ends the fetch at the current-conditions response ends it
      with only that request sent and both fields unchanged. */
  lemma CurrentRejectedKeepsState(weather: Json, forecast: Json, entry: string,
                                  current: Response, forecastResponse: Response)
    requires !AllSpace(entry) && CurrentFailure(current).Some?
    ensures Fetch(weather, forecast, entry, current, forecastResponse)
            == Fetched(weather, forecast, [Request(CurrentWeather, Strip(entry))],
                       CurrentFailure(current).value)
  {
  }

  /** A failed forecast request is a network error too, but it comes after
      `weather_data` was assigned: the new current payload is kept, paired
      with whatever forecast was stored before (possibly none, i.e. null). */
  lemma ForecastFailureLeavesPartialState(weather: Json, forecast: Json, entry: string,
                                          current: Response, forecastResponse: Response)
    requires !AllSpace(entry) && Delivers(current) && !Delivers(forecastResponse)
    ensures Fetch(weather, forecast, entry, current, forecastResponse)
            == Fetched(current.payload, forecast,
                       [Request(CurrentWeather, Strip(entry)), Request(ForecastWeather, Strip(entry))],
                       NetworkError)
  {
  }

  /** Both requests deliver: both fields hold the new payloads, and the
      outcome is the display and the charts built from exactly those two
      payloads, or the generic error when building them raises (a missing
      key, a `dt_txt` without a time part, ...). */
  lemma BothDeliveredReplacesBoth(weather: Json, forecast: Json, entry: string,
                                  current: Response, forecastResponse: Response)
    requires !AllSpace(entry) && Delivers(current) && Delivers(forecastResponse)
    ensures var r := Fetch(weather, forecast, entry, current, forecastResponse);
      && r.weather == current.payload && r.forecast == forecastResponse.payload
      && |r.issued| == 2
      && r.outcome == match Present(current.payload, forecastResponse.payload)
                      case None => UnexpectedError
                      case Some((d, c)) => Success(d, c)
  {
  }

  /** A successful fetch shows the current payload's record and charts
      built from the first `min(8, |list|)` forecast entries of the stored
      forecast payload: the pie from the current payload, the lines and
      bars from the series. */
  lemma SuccessShowsStoredPayloads(weather: Json, forecast: Json, entry: string,
                                   current: Response, forecastResponse: Response)
    requires Fetch(weather, forecast, entry, current, forecastResponse).outcome.Success?
    ensures var r := Fetch(weather, forecast, entry, current, forecastResponse);
      && r.weather == current.payload && r.forecast == forecastResponse.payload
      && Normalize(r.weather) == Some(r.outcome.display)
      && BuildSeries(r.forecast).Some?
      && var s := BuildSeries(r.forecast).value;
         && r.outcome.charts.line == LineChart(s.times, s.temps, s.feelsLike)
         && r.outcome.charts.bars.heights == s.humidity
         && Pie(r.weather) == Some(r.outcome.charts.pie)
  {
  }

  /** The stored forecast never changes without the stored current payload
      being replaced in the same fetch, but the reverse can happen: a fetch
      can pair a fresh current payload with an old forecast. */
  lemma ForecastChangesOnlyWithWeather(weather: Json, forecast: Json, entry: string,
                                       current: Response, forecastResponse: Response)
    ensures var r := Fetch(weather, forecast, entry, current, forecastResponse);
      r.forecast != forecast ==> r.weather == current.payload && |r.issued| == 2
  {
  }

  /** A concrete run that leaves mixed state: a first fetch stores both
      payloads, a second one for another city gets its current payload and
      then a 503 on the forecast; afterwards the stored forecast is still
      the first city's. */
  lemma MixedStateExample(city1: string, city2: string, w1: Json, f1: Json, w2: Json, f2: Json)
    requires !AllSpace(city1) && !AllSpace(city2)
    ensures var first := Fetch(Null, Null, city1, Response(200, w1), Response(200, f1));
      var second := Fetch(first.weather, first.forecast, city2, Response(200, w2), Response(503, f2));
      && first.weather == w1 && first.forecast == f1
      && second.outcome == NetworkError
      && second.weather == w2 && second.forecast == f1
  {
    var first := Fetch(Null, Null, city1, Response(200, w1), Response(200, f1));
    assert first.weather == w1 && first.forecast == f1;
    ForecastFailureLeavesPartialState(w1, f1, city2, Response(200, w2), Response(503, f2));
  }

  /** The object itself. */
  class WeatherDashboard {
    var weatherData: Json      // self.weather_data
    var forecastData: Json     // self.forecast_data
    ghost var sent: seq<Request>  // the requests the latest fetch sent, in order

    /** `__init__`: nothing fetched yet (both fields None). */
    constructor ()
      ensures weatherData == Null && forecastData == Null && sent == []
    {
      weatherData := Null;
      forecastData := Null;
      sent := [];
    }

    /** `fetch_weather`: reads the entry, sends the requests in order and
        stores each payload as soon as its response is accepted. */
    method FetchWeather(entry: string, current: Response, forecast: Response)
      returns (outcome: Outcome)
      modifies this
      ensures Fetched(weatherData, forecastData, sent, outcome)
              == Fetch(old(weatherData), old(forecastData), entry, current, forecast)
    {
      ghost var w0, f0 := weatherData, forecastData;
      sent := [];
      var city := Strip(entry);
      if city == [] {
        BlankInputIssuesNothing(w0, f0, entry, current, forecast);
        return InputError;
      }
      sent := [Request(CurrentWeather, city)];
      var failure := CurrentFailure(current);
      if failure.Some? {
        CurrentRejectedKeepsState(w0, f0, entry, current, forecast);
        return failure.value;
      }
      weatherData := current.payload;
      sent := [Request(CurrentWeather, city), Request(ForecastWeather, city)];
      if !Delivers(forecast) {
        ForecastFailureLeavesPartialState(w0, f0, entry, current, forecast);
        return NetworkError;
      }
      forecastData := forecast.payload;
      BothDeliveredReplacesBoth(w0, f0, entry, current, forecast);
      var views := Present(weatherData, forecastData);
      if views.None? {
        return UnexpectedError;
      }
      outcome := Success(views.value.0, views.value.1);
    }

    /** `save_data`: nothing when the stored current payload is falsy (never
        fetched, or an empty document); otherwise the file named from the
        clock holding both stored payloads. It reads the state and never
        changes it, so saving twice without a fetch in between writes the
        same document. */
    method SaveData(now: DateTime) returns (saved: Option<SavedFile>)
      requires ValidDateTime(now)
      ensures saved.None? <==> !Truthy(weatherData)
      ensures saved.Some? ==> saved.value.name == FileName(now)
      ensures saved.Some? ==> saved.value.document.Obj?
                              && saved.value.document.fields.Keys == {"current", "forecast"}
                              && saved.value.document.fields["current"] == weatherData
                              && saved.value.document.fields["forecast"] == forecastData
    {
      if Truthy(weatherData) {
        saved := Some(SavedFile(FileName(now), Document(weatherData, forecastData)));
      } else {
        saved := None;
      }
    }
  }
}
