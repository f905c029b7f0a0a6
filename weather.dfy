/**
  The weather adapter (`integrations/weather.py`): its configuration and
  `fetch_weather`, which asks OpenWeatherMap's `/weather` endpoint for the
  current conditions at a location and flattens the answer into one record.
  The adapter's client is fixed at construction, so the adapter is a value;
  what the network answers is the oracle `net`.
*/
module Weather {
  import opened Wrappers
  import opened Dicts
  import opened Values
  import opened Errors
  import opened PyOps
  import opened Http
  import Fields

  datatype WeatherConfig = WeatherConfig(
    apiKey: string,
    baseUrl: string,
    timeout: real,
    retries: int,
    backoffFactor: real)

  const DefaultBaseUrl := "https://api.openweathermap.org/data/2.5"

  /** `WeatherConfig.model_validate(raw)`: the API key is required, every other field has a default. */
  function ValidateConfig(raw: Assoc<Value>): (r: Result<WeatherConfig, Exc>)
    ensures r.Err? ==> r.error.cls == ValidationError
    ensures !HasKey(raw, "api_key") ==> r.Err?
    ensures r.Ok? ==> Get(raw, "api_key") == Some(Str(r.value.apiKey))
    ensures r.Ok? && !HasKey(raw, "base_url") ==> r.value.baseUrl == "https://api.openweathermap.org/data/2.5"
    ensures r.Ok? && !HasKey(raw, "timeout") ==> r.value.timeout == 10.0
    ensures r.Ok? && !HasKey(raw, "retries") ==> r.value.retries == 1
    ensures r.Ok? && !HasKey(raw, "backoff_factor") ==> r.value.backoffFactor == 0.5
  {
    var apiKey :- Fields.Validated(Fields.StrField(raw, "api_key", None));
    var baseUrl :- Fields.Validated(Fields.StrField(raw, "base_url", Some(DefaultBaseUrl)));
    var timeout :- Fields.Validated(Fields.FloatField(raw, "timeout", 10.0));
    var retries :- Fields.Validated(Fields.IntField(raw, "retries", 1));
    var backoffFactor :- Fields.Validated(Fields.FloatField(raw, "backoff_factor", 0.5));
    Ok(WeatherConfig(apiKey, baseUrl, timeout, retries, backoffFactor))
  }

  datatype WeatherAdapter = WeatherAdapter(config: WeatherConfig, client: ResilientAsyncHTTPClient)

  /** `WeatherAdapter(config=config)`: a client for the configured base URL that sends no extra headers. */
  function NewAdapter(config: WeatherConfig): (a: WeatherAdapter)
    ensures a.config == config
    ensures a.client.baseUrl == Some(config.baseUrl) && a.client.timeout == Some(config.timeout)
    ensures a.client.headers == []
    ensures config.retries >= 0 ==> a.client.retries == config.retries
  {
    WeatherAdapter(config, NewClient(Some(config.baseUrl), None, Some(config.timeout), config.retries, config.backoffFactor))
  }

  const MissingKeyMessage := "Weather API key not configured. Set TOOL_WEATHER_CONFIG__API_KEY"

  /** The query `fetch_weather` sends: the location, the unit system and the API key, in that order. */
  function WeatherParams(location: string, units: string, apiKey: string): (p: Assoc<Value>)
    ensures Keys(p) == ["q", "units", "appid"]
    ensures Get(p, "q") == Some(Str(location)) && Get(p, "units") == Some(Str(units))
    ensures Get(p, "appid") == Some(Str(apiKey))
  {
    Cons("q", Str(location), Cons("units", Str(units), Cons("appid", Str(apiKey), [])))
  }

  function WeatherCall(location: string, units: string, apiKey: string): Call {
    Call("GET", "/weather", WeatherParams(location, units, apiKey), [])
  }

  /** The flattened conditions `fetch_weather` returns. */
  datatype Conditions = Conditions(
    location: Value,
    temperature: Value,
    feelsLike: Value,
    description: Value,
    humidity: Value,
    pressure: Value,
    windSpeed: Value,
    windDirection: Value,
    visibility: Value,
    clouds: Value,
    units: string)
  {
    /** The conditions as the dict `fetch_weather` returns, keys in the source's order. */
    function ToDict(): Assoc<Value> {
      [("location", location), ("temperature", temperature), ("feels_like", feelsLike),
       ("description", description), ("humidity", humidity), ("pressure", pressure),
       ("wind_speed", windSpeed), ("wind_direction", windDirection), ("visibility", visibility),
       ("clouds", clouds), ("units", Str(units))]
    }
  }

  /** The location line: "name, country" when the answer names a country, else the name alone. */
  function LocationLine(name: Value, country: Value): (l: Value)
    ensures Truthy(country) ==> l == Str(PyStr(name) + ", " + PyStr(country))
    ensures !Truthy(country) ==> l == name
  {
    if Truthy(country) then Str(PyStr(name) + ", " + PyStr(country)) else name
  }

  /**
    `fetch_weather`'s reading of OpenWeatherMap's answer `response`. The
    answer's sections `main`, `weather` (its first element), `wind` and
    `clouds` are read with `.get`, so each must be a dict; a missing section
    reads as empty.
  */
  function Read(response: Value, location: string, units: string): (r: Result<Conditions, Exc>)
    ensures !response.Dict? ==> r.Err? && r.error.cls == AttributeError
    ensures r.Err? ==> r.error.cls in {AttributeError, IndexError, KeyError, TypeError}
    ensures r.Ok? ==> response.Dict? && r.value.units == units
    ensures r.Ok? ==>
      var sys := GetOr(response.entries, "sys", Dict([]));
      && sys.Dict?
      && r.value.location == LocationLine(GetOr(response.entries, "name", Str(location)), GetOr(sys.entries, "country", Str("")))
    ensures r.Ok? ==>
      var main := GetOr(response.entries, "main", Dict([]));
      && main.Dict?
      && r.value.temperature == GetOr(main.entries, "temp", Null)
      && r.value.feelsLike == GetOr(main.entries, "feels_like", Null)
      && r.value.humidity == GetOr(main.entries, "humidity", Null)
      && r.value.pressure == GetOr(main.entries, "pressure", Null)
    ensures r.Ok? ==>
      var weather := First(GetOr(response.entries, "weather", List([Dict([])])));
      && weather.Ok? && weather.value.Dict?
      && r.value.description == GetOr(weather.value.entries, "description", Str(""))
    ensures r.Ok? ==>
      var wind := GetOr(response.entries, "wind", Dict([]));
      && wind.Dict?
      && r.value.windSpeed == GetOr(wind.entries, "speed", Null)
      && r.value.windDirection == GetOr(wind.entries, "deg", Null)
    ensures r.Ok? ==> r.value.visibility == GetOr(response.entries, "visibility", Null)
    ensures r.Ok? ==>
      var clouds := GetOr(response.entries, "clouds", Dict([]));
      && clouds.Dict?
      && r.value.clouds == GetOr(clouds.entries, "all", Null)
  {
    match GetAttr(response, "main", Dict([]))
    case Err(e) => Err(e)
    case Ok(main) =>
      var entries := response.entries;
      var weather :- First(GetOr(entries, "weather", List([Dict([])])));
      var wind := GetOr(entries, "wind", Dict([]));
      var name := GetOr(entries, "name", Str(location));
      var country :- GetAttr(GetOr(entries, "sys", Dict([])), "country", Str(""));
      var line := LocationLine(name, country);
      if !main.Dict? then Err(GetAttr(main, "temp", Null).error)
      else if !weather.Dict? then Err(GetAttr(weather, "description", Str("")).error)
      else if !wind.Dict? then Err(GetAttr(wind, "speed", Null).error)
      else
        var clouds :- GetAttr(GetOr(entries, "clouds", Dict([])), "all", Null);
        Ok(Conditions(
          line,
          GetOr(main.entries, "temp", Null),
          GetOr(main.entries, "feels_like", Null),
          GetOr(weather.entries, "description", Str("")),
          GetOr(main.entries, "humidity", Null),
          GetOr(main.entries, "pressure", Null),
          GetOr(wind.entries, "speed", Null),
          GetOr(wind.entries, "deg", Null),
          GetOr(entries, "visibility", Null),
          clouds,
          units))
  }

  /**
    `fetch_weather`: without an API key it raises before any request;
    otherwise it sends the query through the retrying client and reads the
    answer.
  */
  function FetchWeather(adapter: WeatherAdapter, net: Network, location: string, units: string)
    : (r: Result<Conditions, Exc>)
    ensures adapter.config.apiKey == "" ==> r == Err(Exc(ToolExecutionError, MissingKeyMessage))
    ensures adapter.config.apiKey != "" ==>
      var sent := Send(net, adapter.client, WeatherCall(location, units, adapter.config.apiKey));
      && (sent.Err? ==> r == Err(sent.error))
      && (sent.Ok? ==> r == Read(sent.value, location, units))
    ensures r.Ok? ==> r.value.units == units
  {
    if adapter.config.apiKey == "" then Err(Exc(ToolExecutionError, MissingKeyMessage))
    else
      var response :- Send(net, adapter.client, WeatherCall(location, units, adapter.config.apiKey));
      Read(response, location, units)
  }

  /**
    An empty answer yields the location asked for, an empty description, the
    unit system asked for, and None everywhere else.
  */
  lemma {:induction false} EmptyAnswer(location: string, units: string)
    ensures Read(Dict([]), location, units) ==
      Ok(Conditions(Str(location), Null, Null, Str(""), Null, Null, Null, Null, Null, Null, units))
  {
  }

  /** An answer whose `sys` names a country labels the location "name, country". */
  lemma {:induction false} CountryLabelsLocation(response: Value, location: string, units: string, name: string, country: string)
    requires Read(response, location, units).Ok?
    requires GetOr(response.entries, "name", Str(location)) == Str(name)
    requires GetOr(response.entries, "sys", Dict([])) == Dict([("country", Str(country))]) && country != ""
    ensures Read(response, location, units).value.location == Str(name + ", " + country)
  {
  }
}
