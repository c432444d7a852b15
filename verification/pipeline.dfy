/** The DAG's wiring: extract, then transform, then load, each stage run
    only on the previous stage's value.  A run ends in the parameter row
    the INSERT is executed with, or in the first error raised. */
module Pipeline {
  import opened Wrappers
  import opened JsonValue
  import opened Weather
  import opened ExtractTask
  import opened TransformTask
  import opened LoadTask

  function Run(x: Exchange): (r: Result<seq<Json>, EtlError>)
    ensures r.Success? <==>
              ExtractWeatherData(x).Success? && HasObservation(ExtractWeatherData(x).value)
    ensures r.Success? ==> |r.value| == |InsertColumns|
    ensures r.Success? ==> r.value[0] == JString(Latitude) && r.value[1] == JString(Longitude)
  {
    var weatherData :- ExtractWeatherData(x);
    var transformedData :- TransformWeatherData(weatherData);
    ParametersOfTransformedDict(transformedData);
    InsertParameters(AsDict(transformedData))
  }

  /** A failed extract ends the run with its own error; nothing is transformed. */
  lemma ExtractFailureStopsRun(x: Exchange)
    requires ExtractWeatherData(x).Failure?
    ensures Run(x) == Failure(ExtractWeatherData(x).error)
  {
  }

  /** A failed transform ends the run with its own error; nothing is loaded. */
  lemma TransformFailureStopsRun(x: Exchange)
    requires ExtractWeatherData(x).Success?
    requires TransformWeatherData(ExtractWeatherData(x).value).Failure?
    ensures Run(x) == Failure(TransformWeatherData(ExtractWeatherData(x).value).error)
  {
  }

  /** A run that gets through both earlier stages always reaches the INSERT,
      with the transformed record's row in column order. */
  lemma SuccessfulRunLoadsRecord(x: Exchange)
    requires ExtractWeatherData(x).Success?
    requires TransformWeatherData(ExtractWeatherData(x).value).Success?
    ensures Run(x) == Success(RecordRow(TransformWeatherData(ExtractWeatherData(x).value).value))
  {
    ParametersOfTransformedDict(TransformWeatherData(ExtractWeatherData(x).value).value);
  }

  /** A non-200 status ends the run with an error carrying that status. */
  lemma BadStatusFailsRun(resp: Response)
    requires resp.statusCode != 200
    ensures Run(Delivered(resp)) == Failure(FetchFailed(resp.statusCode, resp.text))
  {
  }

  /** The scenario payload: a `current_weather` object with the four
      observations and nothing else. */
  function ObservationPayload(t: Json, w: Json, d: Json, c: Json): Json {
    JObject([(CurrentWeatherKey, JObject([
      ("temperature", t), ("windspeed", w), ("winddirection", d), ("weathercode", c)]))])
  }

  /** Such a payload's record carries the four observations as written. */
  lemma ObservationPayloadRecord(t: Json, w: Json, d: Json, c: Json)
    requires t != JNull && w != JNull && d != JNull && c != JNull
    ensures TransformWeatherData(ObservationPayload(t, w, d, c)) ==
            Success(WeatherRecord(Latitude, Longitude, Some(t), Some(w), Some(d), Some(c)))
  {
    var obs := [("temperature", t), ("windspeed", w), ("winddirection", d), ("weathercode", c)];
    SingleObservationRecord(obs);
    assert DistinctKeys(obs);
    LookupDistinct(obs, 0);
    LookupDistinct(obs, 1);
    LookupDistinct(obs, 2);
    LookupDistinct(obs, 3);
  }

  /** End to end: a 200 response whose observations are temperature 15.2,
      windspeed 10.1, winddirection 200 and weathercode 3 reaches the INSERT
      with exactly the row (51.5074, -0.1278, 15.2, 10.1, 200, 3). */
  lemma LondonScenario()
    ensures Run(Delivered(Response(200, "", Some(ObservationPayload(
                JNumber(Decimal(152, -1)), JNumber(Decimal(101, -1)),
                JNumber(Decimal(200, 0)), JNumber(Decimal(3, 0))))))) ==
            Success([JString("51.5074"), JString("-0.1278"),
                     JNumber(Decimal(152, -1)), JNumber(Decimal(101, -1)),
                     JNumber(Decimal(200, 0)), JNumber(Decimal(3, 0))])
  {
    var t, w, d, c := JNumber(Decimal(152, -1)), JNumber(Decimal(101, -1)), JNumber(Decimal(200, 0)), JNumber(Decimal(3, 0));
    ObservationPayloadRecord(t, w, d, c);
    SuccessfulRunLoadsRecord(Delivered(Response(200, "", Some(ObservationPayload(t, w, d, c)))));
  }

  /** End to end: a 200 response with the empty object fails with the
      missing-observation error, so no row is loaded. */
  lemma EmptyPayloadScenario()
    ensures Run(Delivered(Response(200, "", Some(JObject([]))))) == Failure(MissingCurrentWeather)
  {
  }
}
