/**
  The `weather` tool (`tools/weather.py`): its input and output models, its
  handler, which accepts only the metric and imperial unit systems (in any
  letter case) and fetches the current conditions, and `build_tool`.
*/
module WeatherTool {
  import opened Wrappers
  import opened Dicts
  import opened Values
  import opened Errors
  import opened Schemas
  import opened Tooling
  import opened Http
  import Weather
  import Fields
  import Text

  const ToolName := "weather"

  const Description := "Retrieve current weather information for a specified city using OpenWeatherMap API."

  /** `WeatherInput`. */
  datatype WeatherInput = WeatherInput(location: string, units: string)

  /** `WeatherInput.model_validate(data)`: the location is required, the unit system defaults to "metric". */
  function ValidateInput(data: Assoc<Value>): (r: Result<WeatherInput, string>)
    ensures !HasKey(data, "location") ==> r.Err?
    ensures r.Ok? ==> Get(data, "location") == Some(Str(r.value.location))
    ensures r.Ok? && !HasKey(data, "units") ==> r.value.units == "metric"
    ensures r.Ok? && HasKey(data, "units") ==> Get(data, "units") == Some(Str(r.value.units))
  {
    var location :- Fields.StrField(data, "location", None);
    var units :- Fields.StrField(data, "units", Some("metric"));
    Ok(WeatherInput(location, units))
  }

  const InvalidUnitsMessage := "Invalid unit system. Choose 'metric' or 'imperial'."

  predicate IsKnownUnits(units: string) {
    units in {"metric", "imperial"}
  }

  /** What the handler returns: the conditions under the key "conditions". */
  function Report(c: Weather.Conditions): Value {
    Dict([("conditions", Dict(c.ToDict()))])
  }

  /**
    The tool's handler: the unit system is lower-cased and must be metric or
    imperial, checked before any request; then the conditions are fetched
    in that unit system.
  */
  function Handle(adapter: Weather.WeatherAdapter, net: Network, payload: WeatherInput): (o: HandlerOutcome)
    ensures !IsKnownUnits(Text.Lower(payload.units)) ==> o == Raised(Exc(ToolExecutionError, InvalidUnitsMessage))
    ensures IsKnownUnits(Text.Lower(payload.units)) ==>
      var fetched := Weather.FetchWeather(adapter, net, payload.location, Text.Lower(payload.units));
      && (fetched.Err? ==> o == Raised(fetched.error))
      && (fetched.Ok? ==> o == ReturnedRaw(Report(fetched.value)) && fetched.value.units == Text.Lower(payload.units))
  {
    var units := Text.Lower(payload.units);
    if !IsKnownUnits(units) then Raised(Exc(ToolExecutionError, InvalidUnitsMessage))
    else match Weather.FetchWeather(adapter, net, payload.location, units)
      case Err(e) => Raised(e)
      case Ok(c) => ReturnedRaw(Report(c))
  }

  /** A value `Optional[float | str | int]` accepts unchanged. */
  predicate IsScalar(v: Value) {
    v.Null? || v.Float? || v.Str? || v.Int?
  }

  /**
    One value validated as `Optional[float | str | int]`: None, floats,
    strings and integers are kept; a boolean becomes the float 0.0 or 1.0;
    lists and dicts are refused.
  */
  function AsScalar(key: string, v: Value): (r: Result<Value, string>)
    ensures IsScalar(v) ==> r == Ok(v)
    ensures r.Err? <==> v.List? || v.Dict?
    ensures r.Ok? ==> IsScalar(r.value)
  {
    match v
    case Bool(b) => Ok(Float(if b then 1.0 else 0.0))
    case List(_) => Fields.Invalid(key, "Input should be a valid number, string or integer")
    case Dict(_) => Fields.Invalid(key, "Input should be a valid number, string or integer")
    case _ => Ok(v)
  }

  /** The items of the conditions dict validated one by one, keys kept in order. */
  function ScalarEntries(entries: Assoc<Value>): (r: Result<Assoc<Value>, string>)
    ensures r.Ok? <==> forall i :: 0 <= i < |entries| ==> !(entries[i].1.List? || entries[i].1.Dict?)
    ensures r.Ok? ==> Keys(r.value) == Keys(entries)
    ensures r.Ok? ==> forall i :: 0 <= i < |entries| ==> IsScalar(r.value[i].1)
  {
    if entries == [] then Ok([])
    else
      var v :- AsScalar("conditions." + entries[0].0, entries[0].1);
      var rest :- ScalarEntries(entries[1..]);
      Ok([(entries[0].0, v)] + rest)
  }

  /** Conditions whose every value is already a scalar pass unchanged. */
  lemma {:induction false} ScalarEntriesKeep(entries: Assoc<Value>)
    requires forall i :: 0 <= i < |entries| ==> IsScalar(entries[i].1)
    ensures ScalarEntries(entries) == Ok(entries)
  {
    if entries != [] {
      assert AsScalar("conditions." + entries[0].0, entries[0].1) == Ok(entries[0].1);
      assert forall i :: 0 <= i < |entries[1..]| ==> entries[1..][i] == entries[i + 1];
      ScalarEntriesKeep(entries[1..]);
      assert [(entries[0].0, entries[0].1)] + entries[1..] == entries;
    }
  }

  /** `WeatherOutput.model_validate(raw).model_dump()`: the conditions default to {} and hold scalars only. */
  function ValidateOutput(raw: Value): (r: Result<Assoc<Value>, string>)
    ensures !raw.Dict? ==> r.Err?
    ensures r.Ok? ==> Keys(r.value) == ["conditions"] && r.value[0].1.Dict?
    ensures r.Ok? && !HasKey(raw.entries, "conditions") ==> r.value == [("conditions", Dict([]))]
  {
    if !raw.Dict? then Err("Input should be a valid dictionary or instance of WeatherOutput")
    else
      var conditions :- Fields.Field(raw.entries, "conditions", Some(Dict([])));
      if !conditions.Dict? then Fields.Invalid("conditions", "Input should be a valid dictionary")
      else
        var entries :- ScalarEntries(conditions.entries);
        Ok([("conditions", Dict(entries))])
  }

  /** A report whose readings are all scalars passes the output model unchanged. */
  lemma {:induction false} ReportValid(c: Weather.Conditions)
    requires IsScalar(c.location) && IsScalar(c.temperature) && IsScalar(c.feelsLike) && IsScalar(c.description)
    requires IsScalar(c.humidity) && IsScalar(c.pressure) && IsScalar(c.windSpeed) && IsScalar(c.windDirection)
    requires IsScalar(c.visibility) && IsScalar(c.clouds)
    ensures ValidateOutput(Report(c)) == Ok(Report(c).entries)
  {
    var d := c.ToDict();
    assert forall i :: 0 <= i < |d| ==> IsScalar(d[i].1);
    ScalarEntriesKeep(d);
  }

  /** The validated input bound to the handler, as the spec's input model yields it. */
  function InputModel(adapter: Weather.WeatherAdapter, net: Network): Assoc<Value> -> Result<BoundHandler, string> {
    (data: Assoc<Value>) =>
      match ValidateInput(data)
      case Err(m) => Err(m)
      case Ok(payload) => Ok((context: Option<Assoc<Value>>) => Handle(adapter, net, payload))
  }

  /** `build_tool`: validates the weather configuration and returns the `weather` spec. */
  function BuildTool(net: Network, rawConfig: Assoc<Value>): (r: Result<ToolSpec, Exc>)
    ensures r.Err? <==> Weather.ValidateConfig(rawConfig).Err?
    ensures r.Err? ==> r.error.cls == ValidationError
    ensures r.Ok? ==> r.value.name == "weather" && r.value.description == Description
  {
    var config :- Weather.ValidateConfig(rawConfig);
    var adapter := Weather.NewAdapter(config);
    Ok(ToolSpec(ToolName, Description, InputModel(adapter, net), ValidateOutput))
  }

  /** An unknown unit system fails the invocation with the units message, whatever the network would answer. */
  lemma {:induction false} UnknownUnitsRefused(net: Network, rawConfig: Assoc<Value>, request: ToolInvocationRequest)
    requires BuildTool(net, rawConfig).Ok?
    requires ValidateInput(request.input).Ok?
    requires !IsKnownUnits(Text.Lower(ValidateInput(request.input).value.units))
    ensures Invoke(BuildTool(net, rawConfig).value, request) == Ok(ToolInvocationResponse(false, [], Some(InvalidUnitsMessage)))
  {
    Taxonomy();
  }

  /** Without an API key a valid request fails with the configuration hint, whatever the network would answer. */
  lemma {:induction false} MissingKeyReported(net: Network, rawConfig: Assoc<Value>, request: ToolInvocationRequest)
    requires BuildTool(net, rawConfig).Ok? && Weather.ValidateConfig(rawConfig).value.apiKey == ""
    requires ValidateInput(request.input).Ok?
    requires IsKnownUnits(Text.Lower(ValidateInput(request.input).value.units))
    ensures Invoke(BuildTool(net, rawConfig).value, request)
         == Ok(ToolInvocationResponse(false, [], Some(Weather.MissingKeyMessage)))
  {
    Taxonomy();
  }

  /** Asking in capitals is asking in lower case: "METRIC" fetches metric conditions. */
  lemma {:induction false} UnitsCaseInsensitive(adapter: Weather.WeatherAdapter, net: Network, location: string)
    ensures Handle(adapter, net, WeatherInput(location, "METRIC")) == Handle(adapter, net, WeatherInput(location, "metric"))
  {
    assert Text.Lower("METRIC") == "metric";
    assert Text.Lower("metric") == "metric";
  }
}
