/** What the three tasks of the weather pipeline share: the fixed London
    coordinates, the error kinds the tasks raise, and the record the
    transform builds together with the Python dict it is handed on as. */
module Weather {
  import opened Wrappers
  import opened JsonValue

  /** The coordinates are module-level string constants, never read from a payload. */
  const Latitude: string := "51.5074"
  const Longitude: string := "-0.1278"

  /** The four observation keys copied out of `current_weather`, in the order
      the record lists them. */
  const ObservationKeys: seq<string> := ["temperature", "windspeed", "winddirection", "weathercode"]

  /** The keys of the transformed dict, in the order its literal writes them. */
  const RecordKeys: seq<string> := ["latitude", "longitude"] + ObservationKeys

  /** The exceptions that end a run. */
  datatype EtlError =
    | FetchFailed(statusCode: int, text: string)  // the plain Exception raised for a non-200 status
    | TransportFailed(cause: string)              // whatever the HTTP hook raised, re-raised unchanged
    | BodyNotJson                                 // `response.json()` raised on a 200 response
    | MissingCurrentWeather                       // the ValueError for absent or falsy `current_weather`
    | NotADict                                    // AttributeError: `.get` called on a value that is not a dict
    | MissingKey(key: string)                     // KeyError while reading the transformed dict

  /** The transformed record.  An observation is `None` exactly when Python
      holds `None` there; otherwise it is the payload's value, unconverted. */
  datatype WeatherRecord = WeatherRecord(
    latitude: string,
    longitude: string,
    temperature: Option<Json>,
    windspeed: Option<Json>,
    winddirection: Option<Json>,
    weathercode: Option<Json>)

  /** A Python value standing where the record has an optional observation. */
  function PyValue(o: Option<Json>): Json {
    match o
    case None => JNull
    case Some(v) => v
  }

  /** The record's value under a key of the transformed dict. */
  function FieldNamed(rec: WeatherRecord, key: string): Json
    requires key in RecordKeys
  {
    if key == "latitude" then JString(rec.latitude)
    else if key == "longitude" then JString(rec.longitude)
    else if key == "temperature" then PyValue(rec.temperature)
    else if key == "windspeed" then PyValue(rec.windspeed)
    else if key == "winddirection" then PyValue(rec.winddirection)
    else PyValue(rec.weathercode)
  }

  /** The dict the transform returns: exactly the six record keys, in the
      literal's order, each holding the record's value for that key. */
  function AsDict(rec: WeatherRecord): (d: Members)
    ensures |d| == |RecordKeys|
    ensures forall i :: 0 <= i < |d| ==> d[i] == (RecordKeys[i], FieldNamed(rec, RecordKeys[i]))
    ensures DistinctKeys(d)
  {
    [ ("latitude", JString(rec.latitude)),
      ("longitude", JString(rec.longitude)),
      ("temperature", PyValue(rec.temperature)),
      ("windspeed", PyValue(rec.windspeed)),
      ("winddirection", PyValue(rec.winddirection)),
      ("weathercode", PyValue(rec.weathercode)) ]
  }
}
