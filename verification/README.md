# Weather ETL pipeline — a Dafny model

The repository is one Airflow DAG, `weather_etl_pipeline`, that once a day
fetches the current weather for London from the Open-Meteo forecast API,
reshapes the payload into a flat six-field record, and inserts that record as
one row of the Postgres table `weather`. This project models the pure logic of
that DAG and proves what it promises:

- `ExtractTask`: the status branch of `extract_weather_data`. The HTTP exchange
  is a parameter: either the hook raised, or it returned a status, a text, and
  what `response.json()` produced.
- `TransformTask`: `transform_weather_data`, the core. It covers the
  `current_weather` lookup with its `{}` default, the falsiness check and its
  ValueError, and the record with fixed coordinates and four copied observations.
- `LoadTask`: the positional parameter tuple of the INSERT in
  `load_weather_data`. Each element is read by key from the transformed dict.
- `Pipeline`: the DAG's wiring, where each task's return value is passed to
  the next (extract, then transform, then load). It is modelled as `Result`
  chaining, with two end-to-end scenarios.
- `JsonValue`: the values `json.loads` produces, seen as Python values. It
  holds dict lookup, `.get` with and without a default, and Python truthiness.
- `Weather`: the constants, the error kinds, the record, and the dict the
  record is handed on as.
- `Wrappers`: `Option` and `Result`.

Modelling choices:

- A JSON object, and equally a Python dict, is a sequence of key/value pairs
  in document order. Looking a key up takes the last pair with that key,
  because `json.loads` keeps the last of duplicate keys.
- Numbers are the decimals they were written as, and they are only copied.
  The one question asked of a number is whether Python reads it as zero, for
  truthiness. An integer literal is read exactly. A literal with a fraction
  or exponent is read as the nearest double, so a magnitude at or below
  2^-1075 (such as `1e-400`) reads as 0.0 and is falsy
  (`TransformTask.UnderflowingCurrentWeatherIsMissing`).
- `current_weather` may hold any JSON value. Absent, null, `false`, a number
  read as zero, `""`, `[]` and `{}` are falsy and raise the ValueError
  (`MissingCurrentWeather`).
  Any other value that is not an object would make `.get` raise AttributeError.
  The model returns `NotADict` for it, and also for a payload that is not an
  object.
- An observation in the record is `None` when Python holds `None` there. That
  is the case when the key is absent and also when it holds JSON null, since
  `.get` cannot tell the two apart. Otherwise the observation is the
  payload's value, unchanged.
- The INSERT binds six data columns.
- Transport and decoding failures are re-raised unchanged, so they are the
  separate kinds `TransportFailed` and `BodyNotJson`.
- Only emptiness of `current_weather` is checked. A non-empty object with
  none of the four observations gives a record whose observations are all
  `None` (`TransformTask.UnrelatedMemberOnlyGivesEmptyRecord`).
- A run ends in the parameter row handed to the INSERT. Whether Postgres
  accepts that row is not part of the model.

## Model

| member | source | states |
|---|---|---|
| `JsonValue.Lookup` | dags/etlweather.py:90-95 | Dict indexing finds a value exactly when some member has the key, and the value found belongs to the last member with that key. |
| `JsonValue.GetOr` | dags/etlweather.py:49 | `.get(k, default)` gives the default when the key is absent, and the stored value when it is present. |
| `JsonValue.GetField` | dags/etlweather.py:56-59 | `.get(k)` is None exactly when the key is absent or holds null. Otherwise it is the stored value, unchanged and never null. |
| `JsonValue.Truthy` | dags/etlweather.py:50 | Python's `bool`: a value is falsy exactly when it is None, False, a number Python reads as zero, or an empty string, list or dict. Everything else is truthy. |
| `JsonValue.UnderflowIsFalsy` | dags/etlweather.py:50 | `1e-400` reads as 0.0, so it is falsy although its digits are not zero. |
| `JsonValue.LookupAppendOther` | dags/etlweather.py:49 | Appending a member under a different key does not change what any other key looks up to. |
| `JsonValue.LookupInsertOther` | dags/etlweather.py:49 | Inserting a member under a different key, at any position, does not change what any other key looks up to. |
| `JsonValue.LookupDistinct` | dags/etlweather.py:53-60 | In a dict literal with distinct keys, each key looks up to the value written beside it. |
| `Weather.AsDict` | dags/etlweather.py:53-60 | The transformed dict has exactly the six record keys, in the literal's order and pairwise distinct. Each key holds the record's value for it. |
| `ExtractTask.ExtractWeatherData` | dags/etlweather.py:35-44 | The decoded body comes back exactly when the response arrived with status 200 and a decodable body. Any other status fails with an error carrying that status and the text. Hook and decoder failures are re-raised as their own kinds. |
| `TransformTask.TransformWeatherData` | dags/etlweather.py:47-63 | It succeeds exactly when `current_weather` is a non-empty object. An absent, null or empty `current_weather` gives the ValueError. On success the coordinates are the constants, and the four observations are `.get` of `current_weather`. |
| `TransformTask.FailureKind` | dags/etlweather.py:49-51 | There are two error kinds. The ValueError comes exactly when `current_weather` is absent or falsy. The AttributeError comes exactly when the payload is not a dict, or `current_weather` is truthy but not a dict. |
| `TransformTask.UnderflowingCurrentWeatherIsMissing` | dags/etlweather.py:49-51 | A `current_weather` of `1e-400` reads as 0.0, so it raises the ValueError rather than the AttributeError. |
| `TransformTask.AbsentObservationIsNone` | dags/etlweather.py:56-59 | An observation is None exactly when its key is absent or null in `current_weather`. It is never a default value. |
| `TransformTask.OnlyCurrentWeatherMatters` | dags/etlweather.py:49-60 | Any two payloads whose `current_weather` looks up the same transform the same. Nothing else in the payload has any effect. |
| `TransformTask.OtherPayloadKeysDropped` | dags/etlweather.py:49-60 | Inserting a member under any key other than `current_weather`, at any position of the payload, does not change the result. |
| `TransformTask.OtherObservationKeysDropped` | dags/etlweather.py:53-60 | Inserting a member under a key other than the four observations, at any position of a non-empty `current_weather`, does not change the result. This holds wherever `current_weather` sits in the payload. |
| `TransformTask.SameObservationsSameRecord` | dags/etlweather.py:53-60 | Two payloads whose four observations read the same give the same record, whatever else they hold. |
| `TransformTask.UnrelatedMemberOnlyGivesEmptyRecord` | dags/etlweather.py:49-60 | A `current_weather` holding only an unrelated member passes the check and gives a record with all four observations None. |
| `TransformTask.SingleObservationRecord` | dags/etlweather.py:49-60 | A payload holding only a non-empty `current_weather` object gives the fixed coordinates plus `.get` of each of the four observations. |
| `LoadTask.Index` | dags/etlweather.py:90-95 | `d[k]` succeeds exactly when the key is present and then gives its value. Otherwise it is a KeyError naming the key. |
| `LoadTask.ReadKeys` | dags/etlweather.py:89-96 | Reading keys left to right succeeds exactly when every key is present, and then gives their values in order. Otherwise the KeyError names the first missing key. |
| `LoadTask.InsertParameters` | dags/etlweather.py:86-96 | The tuple exists exactly when every INSERT column is a key of the dict. Its position i then holds the dict's value for column i of the column list. Otherwise the KeyError names the first missing column. |
| `LoadTask.ParametersOfDictInColumnOrder` | dags/etlweather.py:87-96 | A dict with distinct keys laid out in column order yields its own values as the parameters, position by position. |
| `LoadTask.ParametersOfTransformedDict` | dags/etlweather.py:53-96 | The transformed dict always yields its parameters. They are the record's fields in column order, with None bound as null. |
| `LoadTask.ColumnsMatchFields` | dags/etlweather.py:87-96 | Position i of the record's row is the record's field named by column i of the INSERT. |
| `Pipeline.Run` | dags/etlweather.py:102-104 | A run reaches the INSERT with a six-value row exactly when the extract succeeds and its body has a non-empty `current_weather` object. The row starts with the constant coordinates. |
| `Pipeline.ExtractFailureStopsRun` | dags/etlweather.py:102-103 | A failed extract ends the run with the extract's own error. |
| `Pipeline.TransformFailureStopsRun` | dags/etlweather.py:103-104 | A failed transform ends the run with the transform's own error, and nothing is loaded. |
| `Pipeline.SuccessfulRunLoadsRecord` | dags/etlweather.py:102-104 | When extract and transform succeed, the run reaches the INSERT with exactly the transformed record's row. |
| `Pipeline.BadStatusFailsRun` | dags/etlweather.py:37-41 | A non-200 status fails the whole run with an error carrying that status. |
| `Pipeline.ObservationPayloadRecord` | dags/etlweather.py:53-60 | When `current_weather` holds exactly the four non-null observations, the record carries them verbatim. |
| `Pipeline.LondonScenario` | dags/etlweather.py:47-63 | A 200 response with temperature 15.2, windspeed 10.1, winddirection 200 and weathercode 3 reaches the INSERT with exactly the row ('51.5074', '-0.1278', 15.2, 10.1, 200, 3). |
| `Pipeline.EmptyPayloadScenario` | dags/etlweather.py:49-51 | A 200 response whose body is `{}` fails with the ValueError and loads nothing. |

## Left out

- Airflow DAG construction: the `@daily` schedule, `catchup`, `days_ago`,
  default arguments and the task decorators. These belong to the orchestrator.
  Only the order of the three tasks is kept, as `Result` chaining in `Pipeline.Run`.
- Passing values between tasks through XCom, which serialises them. The model
  hands each value on unchanged.
- The HTTP exchange: building the endpoint URL, `HttpHook.run` and
  `response.json()`. This is network I/O and a foreign decoder, so their
  outcome is the `Exchange` parameter of `ExtractWeatherData`.
- `HttpHook.run` may raise on an error status before the code sees it. The
  hook's own status check is not part of this model. Here every status reaches
  the branch.
- `PostgresHook`, the connection and cursor, `CREATE TABLE IF NOT EXISTS`,
  executing the INSERT, and the commit and close. This is database I/O whose
  meaning lives in Postgres. The server-side timestamp default belongs with it.
- Pipeline.Run: the INSERT's own failures are not modelled. A run whose row
  reaches the INSERT may still insert nothing. That happens when an observation
  is a nested object or array, which the driver cannot adapt, or a string that
  the FLOAT or INTEGER column rejects.
- Logging calls. They are side effects only.
- Floating point: an observation is kept as the exact decimal it was written
  as, while Python holds the nearest double (or int) and binds that. Only the
  zero test follows the double rounding. `NaN` and `Infinity`, which Python's
  decoder also accepts, are not modelled.
- Exception messages are not modelled: the error kinds carry the status code
  and response text, but not the formatted message string.
