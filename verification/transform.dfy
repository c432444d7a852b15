/** The transform task: reshape the decoded payload into the flat record. */
module TransformTask {
  import opened Wrappers
  import opened JsonValue
  import opened Weather

  const CurrentWeatherKey: string := "current_weather"

  /** The payload carries a usable observation: it is an object whose
      `current_weather` member is a non-empty object. */
  predicate HasObservation(payload: Json) {
    && payload.JObject?
    && var cw := Lookup(payload.members, CurrentWeatherKey);
    && cw.Some?
    && cw.value.JObject?
    && |cw.value.members| > 0
  }

  /** The `current_weather` members of a payload that has an observation. */
  function Observation(payload: Json): Members
    requires HasObservation(payload)
  {
    Lookup(payload.members, CurrentWeatherKey).value.members
  }

  /** `current_weather` is read with `{}` as default and rejected when falsy;
      a truthy value that is not a dict fails on `.get`, as does a payload
      that is not a dict.  The record takes the fixed coordinates and the four
      observations exactly as `.get` yields them. */
  function TransformWeatherData(payload: Json): (r: Result<WeatherRecord, EtlError>)
    ensures r.Success? <==> HasObservation(payload)
    ensures payload.JObject? && !HasKey(payload.members, CurrentWeatherKey) ==>
              r == Failure(MissingCurrentWeather)
    ensures payload.JObject? && Lookup(payload.members, CurrentWeatherKey) in {Some(JNull), Some(JObject([]))} ==>
              r == Failure(MissingCurrentWeather)
    ensures r.Failure? ==> r.error in {MissingCurrentWeather, NotADict}
    ensures r.Success? ==> r.value.latitude == Latitude && r.value.longitude == Longitude
    ensures r.Success? ==>
              var obs := Observation(payload);
              && r.value.temperature == GetField(obs, "temperature")
              && r.value.windspeed == GetField(obs, "windspeed")
              && r.value.winddirection == GetField(obs, "winddirection")
              && r.value.weathercode == GetField(obs, "weathercode")
  {
    if !payload.JObject? then Failure(NotADict)
    else
      var cw := GetOr(payload.members, CurrentWeatherKey, JObject([]));
      if !Truthy(cw) then Failure(MissingCurrentWeather)
      else if !cw.JObject? then Failure(NotADict)
      else
        Success(WeatherRecord(
          Latitude,
          Longitude,
          GetField(cw.members, "temperature"),
          GetField(cw.members, "windspeed"),
          GetField(cw.members, "winddirection"),
          GetField(cw.members, "weathercode")))
  }

  /** The error kind for a payload without an observation: the ValueError
      for a missing or falsy `current_weather`, the AttributeError for a
      truthy one that is not a dict (or a payload that is not a dict). */
  lemma FailureKind(payload: Json)
    ensures TransformWeatherData(payload) == Failure(NotADict) <==>
              !payload.JObject? ||
              (var cw := Lookup(payload.members, CurrentWeatherKey);
               cw.Some? && Truthy(cw.value) && !cw.value.JObject?)
    ensures TransformWeatherData(payload) == Failure(MissingCurrentWeather) <==>
              payload.JObject? &&
              (var cw := Lookup(payload.members, CurrentWeatherKey);
               cw.None? || !Truthy(cw.value))
  {
  }

  /** A `current_weather` number that Python reads as 0.0, such as
      `1e-400`, is falsy and gives the ValueError, not the AttributeError. */
  lemma UnderflowingCurrentWeatherIsMissing()
    ensures TransformWeatherData(JObject([(CurrentWeatherKey, JNumber(Decimal(1, -400)))]))
         == Failure(MissingCurrentWeather)
  {
    UnderflowIsFalsy();
  }

  /** In the transformed dict an observation key holds None exactly when it
      is absent from `current_weather` or holds null there, and otherwise
      holds the payload's value; it is never given a default. */
  lemma AbsentObservationIsNone(payload: Json, o: string)
    requires HasObservation(payload)
    requires o in ObservationKeys
    ensures var v := FieldNamed(TransformWeatherData(payload).value, o);
            && (v == JNull <==> !HasKey(Observation(payload), o) || Lookup(Observation(payload), o) == Some(JNull))
            && (v != JNull ==> Lookup(Observation(payload), o) == Some(v))
  {
    var rec := TransformWeatherData(payload).value;
    var obs := Observation(payload);
    var field := if o == "temperature" then rec.temperature
                 else if o == "windspeed" then rec.windspeed
                 else if o == "winddirection" then rec.winddirection
                 else rec.weathercode;
    assert field == GetField(obs, o) by {
      assert o == "weathercode" || o in ObservationKeys[..3];
    }
    assert FieldNamed(rec, o) == PyValue(field);
  }

  /** Only the payload's `current_weather` member matters: two payloads
      whose `current_weather` looks up the same transform the same. */
  lemma OnlyCurrentWeatherMatters(m1: Members, m2: Members)
    requires Lookup(m1, CurrentWeatherKey) == Lookup(m2, CurrentWeatherKey)
    ensures TransformWeatherData(JObject(m1)) == TransformWeatherData(JObject(m2))
  {
  }

  /** Members of the payload other than `current_weather` are dropped:
      inserting one anywhere, before or after the others, changes nothing. */
  lemma OtherPayloadKeysDropped(front: Members, k: string, v: Json, back: Members)
    requires k != CurrentWeatherKey
    ensures TransformWeatherData(JObject(front + [(k, v)] + back)) == TransformWeatherData(JObject(front + back))
  {
    LookupInsertOther(front, k, v, back, CurrentWeatherKey);
    OnlyCurrentWeatherMatters(front + [(k, v)] + back, front + back);
  }

  /** A payload holding only a non-empty `current_weather` object gives the
      record of that object's four observations. */
  lemma SingleObservationRecord(obs: Members)
    requires |obs| > 0
    ensures TransformWeatherData(JObject([(CurrentWeatherKey, JObject(obs))])) ==
            Success(WeatherRecord(Latitude, Longitude,
                                  GetField(obs, "temperature"), GetField(obs, "windspeed"),
                                  GetField(obs, "winddirection"), GetField(obs, "weathercode")))
  {
  }

  /** Two payloads whose observations read the same give the same record,
      whatever else either holds. */
  lemma SameObservationsSameRecord(p1: Json, p2: Json)
    requires HasObservation(p1) && HasObservation(p2)
    requires forall o :: o in ObservationKeys ==> GetField(Observation(p1), o) == GetField(Observation(p2), o)
    ensures TransformWeatherData(p1) == TransformWeatherData(p2)
  {
  }

  /** Members of a non-empty `current_weather` other than the four
      observations are dropped: two payloads whose `current_weather` objects
      differ by one such member inserted anywhere transform the same,
      wherever `current_weather` sits in either payload. */
  lemma OtherObservationKeysDropped(p1: Json, p2: Json, front: Members, k: string, v: Json, back: Members)
    requires p1.JObject? && p2.JObject?
    requires |front + back| > 0
    requires k !in ObservationKeys
    requires Lookup(p1.members, CurrentWeatherKey) == Some(JObject(front + [(k, v)] + back))
    requires Lookup(p2.members, CurrentWeatherKey) == Some(JObject(front + back))
    ensures TransformWeatherData(p1) == TransformWeatherData(p2)
  {
    forall o | o in ObservationKeys
      ensures GetField(Observation(p1), o) == GetField(Observation(p2), o)
    {
      LookupInsertOther(front, k, v, back, o);
    }
    SameObservationsSameRecord(p1, p2);
  }

  /** The emptiness check is the only check: a `current_weather` holding
      nothing but an unrelated member is accepted, and every observation of
      the record is None. */
  lemma UnrelatedMemberOnlyGivesEmptyRecord(k: string, v: Json)
    requires k !in ObservationKeys
    ensures TransformWeatherData(JObject([(CurrentWeatherKey, JObject([(k, v)]))]))
         == Success(WeatherRecord(Latitude, Longitude, None, None, None, None))
  {
  }
}
