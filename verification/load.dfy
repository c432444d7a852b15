/** The load task, reduced to what it computes: the positional parameters of
    the INSERT, read key by key out of the transformed dict.  Creating the
    table, executing the statements and committing happen in Postgres. */
module LoadTask {
  import opened Wrappers
  import opened JsonValue
  import opened Weather

  /** The column list of the INSERT statement, in order. */
  const InsertColumns: seq<string> :=
    ["latitude", "longitude", "temperature", "windspeed", "winddirection", "weathercode"]

  /** `d[k]`: the value, or a KeyError. */
  function Index(d: Members, k: string): (r: Result<Json, EtlError>)
    ensures r.Success? <==> HasKey(d, k)
    ensures r.Success? ==> Lookup(d, k) == Some(r.value)
    ensures r.Failure? ==> r.error == MissingKey(k)
  {
    match Lookup(d, k)
    case None => Failure(MissingKey(k))
    case Some(v) => Success(v)
  }

  /** Reads `d[k]` for each key in turn, left to right as Python evaluates
      a tuple display, stopping at the first KeyError. */
  function ReadKeys(d: Members, keys: seq<string>): (r: Result<seq<Json>, EtlError>)
    ensures r.Success? <==> forall c :: 0 <= c < |keys| ==> HasKey(d, keys[c])
    ensures r.Success? ==> |r.value| == |keys|
    ensures r.Success? ==> forall c :: 0 <= c < |keys| ==> Lookup(d, keys[c]) == Some(r.value[c])
    ensures r.Failure? ==>
              exists c :: 0 <= c < |keys| && r.error == MissingKey(keys[c]) && !HasKey(d, keys[c])
                          && forall c' :: 0 <= c' < c ==> HasKey(d, keys[c'])
  {
    if |keys| == 0 then Success([])
    else
      var v :- Index(d, keys[0]);
      var rest :- ReadKeys(d, keys[1..]);
      Success([v] + rest)
  }

  /** The parameter tuple. It exists exactly when every column is a key of
      the dict, and then holds, at each position, the dict's value for the
      column at that position; otherwise the KeyError names the first column
      missing. */
  function InsertParameters(d: Members): (r: Result<seq<Json>, EtlError>)
    ensures r.Success? <==> forall c :: 0 <= c < |InsertColumns| ==> HasKey(d, InsertColumns[c])
    ensures r.Success? ==> |r.value| == |InsertColumns|
    ensures r.Success? ==> forall c :: 0 <= c < |InsertColumns| ==> Lookup(d, InsertColumns[c]) == Some(r.value[c])
    ensures r.Failure? ==>
              exists c :: 0 <= c < |InsertColumns| && r.error == MissingKey(InsertColumns[c])
                          && !HasKey(d, InsertColumns[c])
                          && forall c' :: 0 <= c' < c ==> HasKey(d, InsertColumns[c'])
  {
    ReadKeys(d, InsertColumns)
  }

  /** The row for a record: its fields in column order, None as SQL NULL. */
  function RecordRow(rec: WeatherRecord): seq<Json> {
    [JString(rec.latitude), JString(rec.longitude),
     PyValue(rec.temperature), PyValue(rec.windspeed),
     PyValue(rec.winddirection), PyValue(rec.weathercode)]
  }

  /** A dict with distinct keys, laid out in column order, yields as
      parameters its own values, position by position. */
  lemma ParametersOfDictInColumnOrder(d: Members, values: seq<Json>)
    requires DistinctKeys(d)
    requires |d| == |InsertColumns| == |values|
    requires forall c :: 0 <= c < |d| ==> d[c] == (InsertColumns[c], values[c])
    ensures InsertParameters(d) == Success(values)
  {
    forall c | 0 <= c < |d|
      ensures Lookup(d, InsertColumns[c]) == Some(values[c])
    {
      LookupDistinct(d, c);
    }
    var r := InsertParameters(d);
    assert r.Success?;
    assert r.value == values;
  }

  /** The dict the transform returns always yields its parameters: the
      record's fields in column order. */
  lemma ParametersOfTransformedDict(rec: WeatherRecord)
    ensures InsertParameters(AsDict(rec)) == Success(RecordRow(rec))
  {
    assert InsertColumns == RecordKeys;
    ParametersOfDictInColumnOrder(AsDict(rec), RecordRow(rec));
  }

  /** The row binds each column of the INSERT to the record's field of the
      same name. */
  lemma ColumnsMatchFields(rec: WeatherRecord, c: nat)
    requires c < |InsertColumns|
    ensures RecordRow(rec)[c] == FieldNamed(rec, InsertColumns[c])
  {
  }
}
