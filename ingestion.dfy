/** The weather ingestion service: fetching a forecast, cutting it down to
    `{location, hour}`, and turning the hourly entries into warehouse rows.
    The HTTP call, the clock, the JSON serialiser and the warehouse insert
    are parameters. */
module Ingestion {
  import opened Outcomes
  import opened Json
  import Timestamp

  // ---------------------------------------------------------------- fetch

  /** The query `fetch_weather_data` sends: the URL and the parameters key, q and date. */
  datatype WeatherQuery = WeatherQuery(apiUrl: string, apiKey: string, location: string, date: string)

  /** What the HTTP call produced: no response, or a status code with a
      body that did (Some) or did not (None) decode as JSON. */
  datatype HttpResponse = ConnectionFailed | Response(status: int, body: Option<Value>)

  /** The `requests` exceptions the fetch can raise. */
  datatype RequestError = Connection | HttpStatus(code: int) | UndecodableBody

  /** The three ways `fetch_weather_data` ends: it returns the decoded body,
      it raises a `requests` exception, or it runs off its end and returns None. */
  datatype FetchResult = Fetched(document: Value) | RequestFailed(cause: RequestError) | ReturnedNone

  /** `fetch_weather_data`: the body only on status 200; `raise_for_status`
      raises on 4xx and 5xx and does nothing on any other status. */
  function FetchWeatherData(response: HttpResponse): (r: FetchResult)
    ensures r.Fetched? <==> response.Response? && response.status == 200 && response.body.Some?
    ensures r.Fetched? ==> r.document == response.body.value
    ensures r.RequestFailed? && r.cause.HttpStatus? ==> response.Response? && r.cause.code == response.status && 400 <= r.cause.code < 600
    ensures r.ReturnedNone? <==> response.Response? && response.status != 200 && !(400 <= response.status < 600)
  {
    match response
    case ConnectionFailed => RequestFailed(Connection)
    case Response(status, body) =>
      if status == 200 then
        match body
        case Some(document) => Fetched(document)
        case None => RequestFailed(UndecodableBody)
      else if 400 <= status < 600 then RequestFailed(HttpStatus(status))
      else ReturnedNone
  }

  // -------------------------------------------------------------- reshape

  /** `weather['forecast']['forecastday'][0]['hour']`. */
  function HourPath(weather: Value): Result<Value, PyError> {
    var forecast :- Subscript(weather, Name("forecast"));
    var days :- Subscript(forecast, Name("forecastday"));
    var firstDay :- Subscript(days, Index(0));
    Subscript(firstDay, Name("hour"))
  }

  /** The dict literal `{'location': ..., 'hour': ...}` of the handler. Its
      values are evaluated left to right, so a missing location is reported
      before a missing forecast. */
  function Reshape(weather: Value): (r: Result<Value, PyError>)
    ensures r.Ok? <==> Subscript(weather, Name("location")).Ok? && HourPath(weather).Ok?
    ensures r.Ok? ==>
      && r.value.Object?
      && DistinctKeys(r.value.members) == ["location", "hour"]
      && Lookup(r.value.members, "location") == Some(Subscript(weather, Name("location")).value)
      && Lookup(r.value.members, "hour") == Some(HourPath(weather).value)
    ensures r.Err? ==> r.error == (if Subscript(weather, Name("location")).Err?
                                   then Subscript(weather, Name("location")).error
                                   else HourPath(weather).error)
  {
    var location :- Subscript(weather, Name("location"));
    var hour :- HourPath(weather);
    var members := [("location", location), ("hour", hour)];
    assert members[..1] == [("location", location)] && members[..1][..0] == [];
    assert DistinctKeys(members[..1]) == ["location"];
    Ok(Object(members))
  }

  // -------------------------------------------------------------- handler

  /** The two settings the handler reads with `os.getenv`. */
  datatype Env = Env(apiUrl: Option<string>, apiKey: Option<string>)

  /** Python truthiness of `os.getenv`'s result: unset and empty both fail. */
  predicate IsSet(setting: Option<string>) {
    setting.Some? && setting.value != ""
  }

  predicate Configured(env: Env) {
    IsSet(env.apiUrl) && IsSet(env.apiKey)
  }

  /** What an endpoint answers: a 200 body or a 500 with a detail message. */
  datatype Reply<T> = Ok200(body: T) | Error500(detail: string)

  const ConfigMissingDetail := "API_URL or API_KEY not set"
  const FetchFailedDetail := "Error fetching data from API"
  /** The framework's answer to an exception that the handler does not catch. */
  const UncaughtDetail := "Internal Server Error"

  /** The `/ingestion` handler. Only `requests` exceptions are caught and
      turned into the fetch-failure reply; a document of the wrong shape, or
      the None that the fetch returns on an unexpected status, raises an
      uncaught exception in the reshape. */
  function IngestionHandler(env: Env, location: string, date: string,
                            upstream: WeatherQuery -> HttpResponse): (r: Reply<Value>)
    ensures !Configured(env) ==> r == Error500(ConfigMissingDetail)
    ensures Configured(env) ==>
      var fetched := FetchWeatherData(upstream(WeatherQuery(env.apiUrl.value, env.apiKey.value, location, date)));
      && (r.Ok200? <==> fetched.Fetched? && Reshape(fetched.document).Ok?)
      && (r.Ok200? ==> r.body == Reshape(fetched.document).value)
      && (fetched.RequestFailed? ==> r == Error500(FetchFailedDetail))
      && (r.Error500? && !fetched.RequestFailed? ==> r.detail == UncaughtDetail)
  {
    if !Configured(env) then Error500(ConfigMissingDetail)
    else
      var query := WeatherQuery(env.apiUrl.value, env.apiKey.value, location, date);
      match FetchWeatherData(upstream(query))
      case RequestFailed(_) => Error500(FetchFailedDetail)
      case ReturnedNone => Error500(UncaughtDetail)  // None['location'] raises TypeError
      case Fetched(weather) =>
        match Reshape(weather)
        case Ok(formatted) => Ok200(formatted)
        case Err(_) => Error500(UncaughtDetail)
  }

  // ----------------------------------------------------------------- rows

  const WeatherTable := "team-god.weather_data.raw_weatherapp"
  const TimeEpoch := Name("time_epoch")

  /** One warehouse row: the two timestamps as `YYYY-MM-DD HH:mm:ss`
      strings, the entry's `time_epoch` and the serialised entry. */
  datatype Row = Row(ingestionTimestamp: string, modifiedTimestamp: string, id: Value, data: string)

  /** `json_data['location']['localtime']`. */
  function LocalTime(jsonData: Value): Result<Value, PyError> {
    var location :- Subscript(jsonData, Name("location"));
    Subscript(location, Name("localtime"))
  }

  /** The `modified_timestamp` expression: the provider's local time,
      parsed as `YYYY-MM-DD HH:mm` and emitted with seconds. */
  function ModifiedTimestamp(jsonData: Value): (r: Result<string, PyError>)
    ensures r.Ok? <==> LocalTime(jsonData).Ok? && LocalTime(jsonData).value.Str?
                       && Timestamp.ParseLocalTime(LocalTime(jsonData).value.s).Some?
    ensures r.Ok? ==> r.value == LocalTime(jsonData).value.s + ":00"
    ensures LocalTime(jsonData).Err? ==> r == Err(LocalTime(jsonData).error)
  {
    var localTime :- LocalTime(jsonData);
    if !localTime.Str? then Err(TypeError)
    else
      var parsed := Timestamp.ParseLocalTime(localTime.s);
      if parsed.Some? then Ok(Timestamp.ToDateTimeString(parsed.value)) else Err(ValueError)
  }

  /** One element of the comprehension. The dict literal is evaluated in
      order: the clock, the local time (whose outcome `modified` is the same
      for every row, as the document does not change), the entry's
      `time_epoch`, the serialisation. */
  function MakeRow(modified: Result<string, PyError>, hour: Value, ingestedAt: string, serialize: Value -> string): Result<Row, PyError> {
    var modifiedAt :- modified;
    var id :- Subscript(hour, TimeEpoch);
    Ok(Row(ingestedAt, modifiedAt, id, serialize(hour)))
  }

  /** The comprehension over `hours`, from the `start`-th clock reading on;
      `clock(n)` is what the n-th call of `pendulum.now()` returns. The
      first row that raises ends the comprehension. */
  function BuildRows(modified: Result<string, PyError>, hours: seq<Value>, clock: nat -> string, start: nat,
                     serialize: Value -> string): Result<seq<Row>, PyError>
    decreases |hours|
  {
    if hours == [] then Ok([])
    else
      var row :- MakeRow(modified, hours[0], clock(start), serialize);
      var rest :- BuildRows(modified, hours[1..], clock, start + 1, serialize);
      Ok([row] + rest)
  }

  /** The index of the first entry that has no `time_epoch`, if any. */
  function FirstWithoutEpoch(hours: seq<Value>): (k: Option<nat>)
    ensures k.Some? ==> k.value < |hours| && Subscript(hours[k.value], TimeEpoch).Err?
                        && forall j :: 0 <= j < k.value ==> Subscript(hours[j], TimeEpoch).Ok?
    ensures k.None? ==> forall j :: 0 <= j < |hours| ==> Subscript(hours[j], TimeEpoch).Ok?
  {
    if hours == [] then None
    else if Subscript(hours[0], TimeEpoch).Err? then Some(0)
    else match FirstWithoutEpoch(hours[1..])
      case Some(k) => Some(k + 1)
      case None => None
  }

  /** The comprehension succeeds exactly when no entry lacks `time_epoch`
      and, unless there are no entries, the local time parses. */
  lemma {:induction false} BuildRowsSucceeds(modified: Result<string, PyError>, hours: seq<Value>, clock: nat -> string,
                                             start: nat, serialize: Value -> string)
    ensures BuildRows(modified, hours, clock, start, serialize).Ok?
            <==> (hours == [] || modified.Ok?) && FirstWithoutEpoch(hours).None?
    decreases |hours|
  {
    if hours != [] && modified.Ok? && Subscript(hours[0], TimeEpoch).Ok? {
      BuildRowsSucceeds(modified, hours[1..], clock, start + 1, serialize);
      if hours[1..] != [] {
        assert hours[1..][0] == hours[1];
      }
    }
  }

  /** On success there is one row per entry, row i built from entry i and
      the (start + i)-th clock reading. */
  lemma {:induction false} BuildRowsRows(modified: Result<string, PyError>, hours: seq<Value>, clock: nat -> string,
                                         start: nat, serialize: Value -> string)
    ensures var r := BuildRows(modified, hours, clock, start, serialize);
      r.Ok? ==>
        && |r.value| == |hours|
        && forall i :: 0 <= i < |hours| ==>
             && modified.Ok? && Subscript(hours[i], TimeEpoch).Ok?
             && r.value[i] == Row(clock(start + i), modified.value,
                                  Subscript(hours[i], TimeEpoch).value, serialize(hours[i]))
    decreases |hours|
  {
    var r := BuildRows(modified, hours, clock, start, serialize);
    if r.Ok? {
      BuildRowsLength(modified, hours, clock, start, serialize);
      forall i | 0 <= i < |hours|
        ensures && modified.Ok? && Subscript(hours[i], TimeEpoch).Ok?
                && r.value[i] == Row(clock(start + i), modified.value, Subscript(hours[i], TimeEpoch).value,
                                     serialize(hours[i]))
      {
        BuildRowsAt(modified, hours, clock, start, serialize, i);
      }
    }
  }

  /** A successful comprehension has one row per entry. */
  lemma {:induction false} BuildRowsLength(modified: Result<string, PyError>, hours: seq<Value>, clock: nat -> string,
                                           start: nat, serialize: Value -> string)
    ensures var r := BuildRows(modified, hours, clock, start, serialize);
      r.Ok? ==> |r.value| == |hours|
    decreases |hours|
  {
    if hours != [] && BuildRows(modified, hours, clock, start, serialize).Ok? {
      BuildRowsCons(modified, hours, clock, start, serialize);
      BuildRowsLength(modified, hours[1..], clock, start + 1, serialize);
    }
  }

  /** Row i of a successful comprehension is built from entry i and the
      (start + i)-th clock reading. */
  lemma {:induction false} BuildRowsAt(modified: Result<string, PyError>, hours: seq<Value>, clock: nat -> string,
                                       start: nat, serialize: Value -> string, i: nat)
    requires i < |hours|
    requires BuildRows(modified, hours, clock, start, serialize).Ok?
    ensures modified.Ok? && Subscript(hours[i], TimeEpoch).Ok?
    ensures var rows := BuildRows(modified, hours, clock, start, serialize).value;
      i < |rows| && rows[i] == Row(clock(start + i), modified.value, Subscript(hours[i], TimeEpoch).value, serialize(hours[i]))
    decreases i
  {
    BuildRowsCons(modified, hours, clock, start, serialize);
    if i > 0 {
      var tail := hours[1..];
      BuildRowsAt(modified, tail, clock, start + 1, serialize, i - 1);
      assert tail[i - 1] == hours[i];
    }
  }

  /** A successful comprehension over a non-empty list: the first entry's
      row, then the rows of the others. */
  lemma BuildRowsCons(modified: Result<string, PyError>, hours: seq<Value>, clock: nat -> string,
                      start: nat, serialize: Value -> string)
    requires hours != []
    requires BuildRows(modified, hours, clock, start, serialize).Ok?
    ensures modified.Ok? && Subscript(hours[0], TimeEpoch).Ok?
    ensures BuildRows(modified, hours[1..], clock, start + 1, serialize).Ok?
    ensures BuildRows(modified, hours, clock, start, serialize).value
            == [Row(clock(start), modified.value, Subscript(hours[0], TimeEpoch).value, serialize(hours[0]))]
               + BuildRows(modified, hours[1..], clock, start + 1, serialize).value
  {
  }

  /** On failure the error is the one the first failing row raises: the
      local time's, or else that of the first entry without `time_epoch`. */
  lemma {:induction false} BuildRowsError(modified: Result<string, PyError>, hours: seq<Value>, clock: nat -> string,
                                          start: nat, serialize: Value -> string)
    ensures var r := BuildRows(modified, hours, clock, start, serialize);
      r.Err? ==>
        if modified.Err? then r.error == modified.error
        else FirstWithoutEpoch(hours).Some?
             && r.error == Subscript(hours[FirstWithoutEpoch(hours).value], TimeEpoch).error
    decreases |hours|
  {
    var r := BuildRows(modified, hours, clock, start, serialize);
    if hours != [] && r.Err? && modified.Ok? && Subscript(hours[0], TimeEpoch).Ok? {
      var tail := hours[1..];
      BuildRowsError(modified, tail, clock, start + 1, serialize);
      var k := FirstWithoutEpoch(tail).value;
      assert tail[k] == hours[k + 1];
      assert FirstWithoutEpoch(hours) == Some(k + 1);
    }
  }

  /** The rows `json_to_bigquery` builds. `json_data['hour']` is read and
      iterated first; the local time is read again for each row. */
  function RowsToInsert(jsonData: Value, clock: nat -> string, serialize: Value -> string): (r: Result<seq<Row>, PyError>)
    ensures jsonData.Object? && Lookup(jsonData.members, "hour").None? ==> r == Err(KeyError(Name("hour")))
    ensures Hours(jsonData).Err? ==> r == Err(Hours(jsonData).error)
    ensures r.Ok? ==> Hours(jsonData).Ok? && |r.value| == |Hours(jsonData).value|
  {
    var hourValue :- Subscript(jsonData, Name("hour"));
    var hours :- Iterate(hourValue);
    BuildRowsLength(ModifiedTimestamp(jsonData), hours, clock, 0, serialize);
    BuildRows(ModifiedTimestamp(jsonData), hours, clock, 0, serialize)
  }

  /** The entries the comprehension runs over, when `json_data['hour']` can be iterated. */
  function Hours(jsonData: Value): Result<seq<Value>, PyError> {
    var hourValue :- Subscript(jsonData, Name("hour"));
    Iterate(hourValue)
  }

  /** One row per hourly entry, in order: row i has entry i's `time_epoch`
      as id, its serialisation as data and the i-th clock reading as
      ingestion time; every row has the same modified timestamp, the local
      time with `:00` seconds. An empty hour list gives no rows, whatever
      the rest of the document holds. */
  lemma RowsPerEntry(jsonData: Value, clock: nat -> string, serialize: Value -> string)
    ensures var r := RowsToInsert(jsonData, clock, serialize);
      && (Hours(jsonData).Err? ==> r == Err(Hours(jsonData).error))
      && (Hours(jsonData) == Ok([]) ==> r == Ok([]))
      && (Hours(jsonData).Ok? ==>
            var hours := Hours(jsonData).value;
            && (r.Ok? <==> (hours == [] || ModifiedTimestamp(jsonData).Ok?) && FirstWithoutEpoch(hours).None?)
            && (r.Ok? ==>
                  && |r.value| == |hours|
                  && forall i :: 0 <= i < |hours| ==>
                       && r.value[i].id == Subscript(hours[i], TimeEpoch).value
                       && r.value[i].data == serialize(hours[i])
                       && r.value[i].ingestionTimestamp == clock(i)
                       && r.value[i].modifiedTimestamp == LocalTime(jsonData).value.s + ":00"))
  {
    var r := RowsToInsert(jsonData, clock, serialize);
    if Hours(jsonData).Ok? {
      var hours := Hours(jsonData).value;
      var modified := ModifiedTimestamp(jsonData);
      assert r == BuildRows(modified, hours, clock, 0, serialize);
      BuildRowsSucceeds(modified, hours, clock, 0, serialize);
      BuildRowsRows(modified, hours, clock, 0, serialize);
      assert r.Ok? <==> (hours == [] || modified.Ok?) && FirstWithoutEpoch(hours).None?;
      if r.Ok? {
        assert |r.value| == |hours|;
        forall i | 0 <= i < |hours|
          ensures && r.value[i].id == Subscript(hours[i], TimeEpoch).value
                  && r.value[i].data == serialize(hours[i])
                  && r.value[i].ingestionTimestamp == clock(i)
                  && r.value[i].modifiedTimestamp == LocalTime(jsonData).value.s + ":00"
        {
          assert r.value[i] == Row(clock(i), modified.value, Subscript(hours[i], TimeEpoch).value, serialize(hours[i]));
        }
      }
    } else {
      assert r == Err(Hours(jsonData).error);
    }
  }

  /** Replaying a document with another clock gives the same outcome, the
      same error and rows that differ at most in `ingestion_timestamp`. */
  lemma ReplayKeepsRowIds(jsonData: Value, clock1: nat -> string, clock2: nat -> string, serialize: Value -> string)
    ensures var r1, r2 := RowsToInsert(jsonData, clock1, serialize), RowsToInsert(jsonData, clock2, serialize);
      && r1.Ok? == r2.Ok?
      && (r1.Err? ==> r1.error == r2.error)
      && (r1.Ok? ==>
            && |r1.value| == |r2.value|
            && forall i :: 0 <= i < |r1.value| ==>
                 && r1.value[i].id == r2.value[i].id
                 && r1.value[i].modifiedTimestamp == r2.value[i].modifiedTimestamp
                 && r1.value[i].data == r2.value[i].data)
  {
    if Hours(jsonData).Ok? {
      var hours := Hours(jsonData).value;
      BuildRowsSucceeds(ModifiedTimestamp(jsonData), hours, clock1, 0, serialize);
      BuildRowsSucceeds(ModifiedTimestamp(jsonData), hours, clock2, 0, serialize);
      BuildRowsRows(ModifiedTimestamp(jsonData), hours, clock1, 0, serialize);
      BuildRowsRows(ModifiedTimestamp(jsonData), hours, clock2, 0, serialize);
      BuildRowsError(ModifiedTimestamp(jsonData), hours, clock1, 0, serialize);
      BuildRowsError(ModifiedTimestamp(jsonData), hours, clock2, 0, serialize);
    }
  }

  // ----------------------------------------------------------------- load

  /** Why `json_to_bigquery` raises: while building the rows, or because the
      insert reported errors. */
  datatype LoadError = Raised(error: PyError) | InsertFailed(errors: seq<string>)

  /** `json_to_bigquery`: build every row, insert them in one call, and fail
      the whole call if the insert reports any error. `insert(table, rows)`
      is the error list the warehouse returns. On success the result is the
      number of rows inserted. */
  function JsonToBigQuery(jsonData: Value, clock: nat -> string, serialize: Value -> string,
                          insert: (string, seq<Row>) -> seq<string>): (r: Result<nat, LoadError>)
    ensures var rows := RowsToInsert(jsonData, clock, serialize);
      && (rows.Err? ==> r == Err(Raised(rows.error)))
      && (rows.Ok? ==>
            var errors := insert(WeatherTable, rows.value);
            && (r.Ok? <==> errors == [])
            && (r.Ok? ==> r.value == |rows.value|)
            && (r.Err? ==> r.error == InsertFailed(errors)))
  {
    match RowsToInsert(jsonData, clock, serialize)
    case Err(e) => Err(Raised(e))
    case Ok(rows) =>
      var errors := insert(WeatherTable, rows);
      if errors != [] then Err(InsertFailed(errors)) else Ok(|rows|)
  }

  const InsertFailedPrefix := "Insert to BigQuery failed: "

  /** The `/bigquery` endpoint: 200 when the load succeeds, otherwise 500
      with the exception's text (`describe`) after a fixed prefix. */
  function BigQueryEndpoint(jsonData: Value, clock: nat -> string, serialize: Value -> string,
                            insert: (string, seq<Row>) -> seq<string>, describe: LoadError -> string): (r: Reply<()>)
    ensures var load := JsonToBigQuery(jsonData, clock, serialize, insert);
      && (r.Ok200? <==> load.Ok?)
      && (r.Error500? ==> r.detail == InsertFailedPrefix + describe(load.error))
  {
    match JsonToBigQuery(jsonData, clock, serialize, insert)
    case Ok(_) => Ok200(())
    case Err(e) => Error500(InsertFailedPrefix + describe(e))
  }
}
