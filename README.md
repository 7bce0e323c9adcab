# Weather ingestion and Google Trends pipeline, modelled in Dafny

The model covers the deterministic core of two small services that move data from HTTP APIs into BigQuery.

- **Weather ingestion** (`ingestion/src/ingestion.py`), modelled as total functions over a decoded-JSON datatype:
  - the status gate of `fetch_weather_data`;
  - the environment guard and the `{location, hour}` reshape of the `/ingestion` handler;
  - the row comprehension of `json_to_bigquery`, where each hourly entry of the forecast becomes one warehouse row;
  - the all-or-nothing check of `json_to_bigquery` on the insert's error list;
  - the `/bigquery` endpoint.
- **Google Trends pipeline** (`pipes/pytrends-api-search-clean/src/main.py`):
  - the retry loop of `fetch_trends_data`, an imperative `method` with linear backoff, proved equal to a declarative specification `RetrySpec`;
  - the column renaming (`å`, `ä` → `a`, `ö` → `o`, space → `_`);
  - the table-id format of `send_to_bigquery`;
  - the cohort loop of `main`, an imperative `method` proved equal to the recursive specification `CohortsFrom`.

Files and modules:

| file | module | contents |
|---|---|---|
| `outcomes.dfy` | `Outcomes` | `Option` and `Result` |
| `decimal.dfy` | `Decimal` | decimal digits; `str(n)` and reading it back |
| `json.dfy` | `Json` | the decoded document; Python's rules for `v[key]` and `for x in v` on it; the exceptions they raise |
| `timestamp.dfy` | `Timestamp` | pendulum's `from_format(s, 'YYYY-MM-DD HH:mm')` and `to_datetime_string()` |
| `ingestion.dfy` | `Ingestion` | fetch, reshape, handler, rows, load |
| `column_names.dfy` | `ColumnNames` | the chained `replace` over column names |
| `trends_fetch.dfy` | `TrendsFetch` | the retry loop and its specification |
| `trends_pipeline.dfy` | `TrendsPipeline` | table ids and the cohort loop |

Everything outside the process is a parameter:
- the weather provider is a function from the query to an `HttpResponse`;
- the trends service is a function from the keyword list and the global attempt number to `Raised` or a frame;
- the warehouse is a function from a table and its rows, or its frame, to an error list or a load outcome;
- the clock is a function from the n-th `pendulum.now()` call to its string;
- `json.dumps` is an opaque function.

Every sleep is recorded as a whole number of seconds in the result. These records are `RetryRun.sleeps` and `Report.sleeps`.

Two behaviours of the code that the model keeps as written:
- **A failed cohort stops the run.** An exhausted fetch (pipes/pytrends-api-search-clean/src/main.py:50, 70) or a failed load (main.py:76) raises, and later keyword lists are never fetched (`CohortsStopAtFirstFailure`, `CohortsFetchedInOrder`).
- **An empty row list is inserted like any other.** ingestion/src/ingestion.py:48 calls `insert_rows` with `[]` and checks the returned errors.

## Model

| member | source | states |
|---|---|---|
| Ingestion.FetchWeatherData | ingestion/src/ingestion.py:22-28 | Returns a document exactly when the status is 200 and the body decodes, and the document is that body. An HTTP error is raised only for a status in 400..599, and it carries that status. Any other non-200 status returns None. |
| Ingestion.Reshape | ingestion/src/ingestion.py:75-78 | Succeeds iff `location` and `forecast.forecastday[0].hour` both resolve. The result has exactly the keys `location` and `hour`, in that order, bound to those two values. On failure the error is the `location` lookup's if it failed, otherwise the hour path's. |
| Ingestion.IngestionHandler | ingestion/src/ingestion.py:59-84 | If API_URL or API_KEY is unset or empty: 500 "API_URL or API_KEY not set", whatever the provider would answer. Otherwise 200 iff the fetch returns a document and the reshape succeeds, with the reshaped document as body. A requests failure gives 500 "Error fetching data from API". Every other failure gives the framework's uncaught-exception 500. |
| Json.Subscript | ingestion/src/ingestion.py:40-41 | `v[key]`: a dict yields the value `Lookup` finds for a string key (its last binding) and raises KeyError for a missing key. A list or str yields the element at an index in range and raises IndexError past its end. A string key on a list or str, and any subscript of null, a bool or a number, raises TypeError. |
| Json.Iterate | ingestion/src/ingestion.py:44 | `for hour in x`: a list yields its items. A dict yields its distinct keys as strings, in order of first appearance, none exactly when it is empty. A str yields its one-character strings in order. Any other value raises. |
| Json.DistinctKeysInOrder | ingestion/src/ingestion.py:44 | A dict's keys come out in the order of their first appearance in the document. |
| Ingestion.ModifiedTimestamp | ingestion/src/ingestion.py:40 | Succeeds iff `location.localtime` resolves to a string that parses. The value is that string followed by `:00`. A failed lookup's error is passed on unchanged. |
| Timestamp.ParseLocalTime | ingestion/src/ingestion.py:40 | Accepts exactly the strings spelled `YYYY-MM-DD HH:mm` that name a real calendar date and time. The parsed value has zero seconds, and emitting it gives the input followed by `:00`. |
| Timestamp.ParseFormatted | ingestion/src/ingestion.py:40 | Every valid minute-precision date and time parses back from the first 16 characters of its own emitted form. |
| Ingestion.BuildRowsSucceeds | ingestion/src/ingestion.py:37-45 | The comprehension succeeds iff no entry lacks `time_epoch` and, unless there are no entries, the local time parses. |
| Ingestion.BuildRowsRows | ingestion/src/ingestion.py:37-45 | On success: one row per entry, in order. Row i holds clock reading start + i, the shared modified timestamp, entry i's `time_epoch` and entry i's serialisation. |
| Ingestion.BuildRowsError | ingestion/src/ingestion.py:37-45 | On failure the error is the local time's if it failed. Otherwise it is the `time_epoch` error of the first entry that lacks it. |
| Ingestion.RowsToInsert | ingestion/src/ingestion.py:37-45 | A document without `hour` raises KeyError('hour'). Any failure to read or iterate `json_data['hour']` is the error. A successful comprehension has one row per entry. |
| Ingestion.RowsPerEntry | ingestion/src/ingestion.py:37-45 | A failure to iterate `json_data['hour']` propagates. An empty hour list gives no rows. Otherwise: success iff every entry has `time_epoch` and the local time parses. Row i has entry i's `time_epoch` as id, its serialisation as data and clock reading i as ingestion time. Every row's modified timestamp is the local time with `:00`. |
| Ingestion.ReplayKeepsRowIds | ingestion/src/ingestion.py:39-42 | Building rows from the same document with two clocks gives the same outcome and the same error. The rows have the same count, id, modified timestamp and data; only the ingestion timestamps may differ. |
| Ingestion.JsonToBigQuery | ingestion/src/ingestion.py:37-51 | A row that fails to build makes the call raise that error, whatever the warehouse would answer. Otherwise the call succeeds iff the insert reports no error, and then returns the row count. Any reported error fails the whole call with those errors. |
| Ingestion.BigQueryEndpoint | ingestion/src/ingestion.py:92-97 | 200 iff the load succeeds. Otherwise 500 with "Insert to BigQuery failed: " followed by the exception's text. |
| ColumnNames.NormalizeColumnPointwise | pipes/pytrends-api-search-clean/src/main.py:42 | The renamed column has the same length. Each `å`, `ä` becomes `a`, each `ö` becomes `o`, each space becomes `_`, and every other character is unchanged. None of the four replaced characters remains. |
| ColumnNames.NormalizeColumnIdempotent | pipes/pytrends-api-search-clean/src/main.py:42 | Renaming twice is renaming once. |
| ColumnNames.NormalizeColumns | pipes/pytrends-api-search-clean/src/main.py:42 | The same number of columns in the same order, each renamed and free of the replaced characters. |
| ColumnNames.NormalizeColumnsIdempotent | pipes/pytrends-api-search-clean/src/main.py:42 | Renaming all columns twice is renaming them once. |
| TrendsFetch.WaitTime | pipes/pytrends-api-search-clean/src/main.py:47 | The wait after failed attempt i is 60 · (i + 1) / 4 seconds, a whole number. |
| TrendsFetch.Backoff | pipes/pytrends-api-search-clean/src/main.py:36-49 | After n failed attempts there were n sleeps, the i-th of 15 · (i + 1) seconds. |
| TrendsFetch.BackoffIncreasing | pipes/pytrends-api-search-clean/src/main.py:47 | Each sleep is strictly longer than the one before. |
| TrendsFetch.BackoffTotal | pipes/pytrends-api-search-clean/src/main.py:36-49 | n sleeps total 15 · n · (n + 1) / 2 seconds. |
| TrendsFetch.ExhaustedBackoffTotal | pipes/pytrends-api-search-clean/src/main.py:33-50 | Ten failures sleep 15, 30, …, 150 seconds, 825 seconds in all. |
| TrendsFetch.PrepareFrame | pipes/pytrends-api-search-clean/src/main.py:41-42 | A fetched frame keeps its columns in order, each renamed. `ingestion_timestamp` is appended at the end unless it is already present, and it survives the renaming. No column holds a replaced character. |
| TrendsFetch.RetrySpecShape | pipes/pytrends-api-search-clean/src/main.py:36-50 | Every fetch makes 1 to 10 attempts, each before the last having raised. It returns a frame iff the last attempt yielded one: the prepared frame, after one sleep per earlier failure. Otherwise it is the terminal error, after exactly 10 attempts and 10 sleeps. |
| TrendsFetch.SucceedsAfterFailures | pipes/pytrends-api-search-clean/src/main.py:36-49 | If the first k < 10 attempts raise and attempt k + 1 yields a frame, the fetch returns that frame. It does so after k sleeps (15, …, 15k seconds) and k + 1 attempts. |
| TrendsFetch.ExhaustsAfterTenFailures | pipes/pytrends-api-search-clean/src/main.py:33-50 | If every attempt raises, the fetch ends with the terminal error. It does so after exactly 10 attempts, with no 11th, and 10 sleeps totalling 825 seconds. |
| TrendsFetch.FetchTrendsData | pipes/pytrends-api-search-clean/src/main.py:29-50 | The loop returns exactly what `RetrySpec` describes: the result, every sleep in order and the number of attempts. |
| TrendsPipeline.TableIdHeadSpelled | pipes/pytrends-api-search-clean/src/main.py:23-25 | Every trends table id starts with `team-god.google_trends.searchwords_new_`. |
| TrendsPipeline.TableIdLayout | pipes/pytrends-api-search-clean/src/main.py:58 | A table id is that head followed by the suffix. The suffix can be read back, and distinct suffixes give distinct ids. |
| TrendsPipeline.CohortTables | pipes/pytrends-api-search-clean/src/main.py:69-72 | The first cohort's table is `..._1` and the fourth's `..._4`, and no two cohorts share a table. |
| TrendsPipeline.LoadsPaired | pipes/pytrends-api-search-clean/src/main.py:69-72 | The j-th load carries a frame that the fetch of the j-th fetched keyword list returned. |
| TrendsPipeline.TrendsFetcherBounded | pipes/pytrends-api-search-clean/src/main.py:29-50 | Every call of `fetch_trends_data` makes 1 to 10 attempts. Any frame it returns has renamed column names. |
| TrendsPipeline.CohortsStopAtFirstFailure | pipes/pytrends-api-search-clean/src/main.py:69-78 | The status is 200 or 500. 200 holds iff every cohort was loaded, and then the detail is empty. On 500, exactly one more cohort was fetched than loaded: the run stopped at the first failure. |
| TrendsPipeline.CohortsFetchedInOrder | pipes/pytrends-api-search-clean/src/main.py:69-70 | The fetched keyword lists are a prefix of the cohort list, in order, each once. No list after the failing one is fetched. |
| TrendsPipeline.CohortsFailureDetail | pipes/pytrends-api-search-clean/src/main.py:70-76 | A 500 says "Failed to fetch data after multiple retries" or starts with "Error sending data to BigQuery: ". |
| TrendsPipeline.CohortsLoadRenamedFrames | pipes/pytrends-api-search-clean/src/main.py:69-72 | The j-th load goes to the table of cohort i + j, with a frame the fetch of the j-th fetched list returned and renamed column names. At most ten attempts are made per fetched cohort. |
| TrendsPipeline.CohortsReport | pipes/pytrends-api-search-clean/src/main.py:69-78 | For any keyword lists:<br>• they are fetched in order, each only after every earlier one was loaded;<br>• load j goes to `..._{j + 1}` with a frame fetched for list j;<br>• 200 holds iff all were loaded, and a 500 fetched one more than it loaded;<br>• at most ten attempts are made per list. |
| TrendsPipeline.MainReport | pipes/pytrends-api-search-clean/src/main.py:16-20 | For the four configured keyword lists:<br>• the suffixes 1 to 4 follow in order;<br>• table `..._{j + 1}` receives a frame that `fetch_trends_data` returned for list j;<br>• 200 holds iff all four were loaded;<br>• loaded frames have renamed columns;<br>• at most 40 attempts are made in all. |
| TrendsPipeline.RunCohorts | pipes/pytrends-api-search-clean/src/main.py:69-78 | The loop returns exactly the report `CohortsFrom` describes: status, detail, fetched lists, loads, sleeps and attempts. |
| TrendsPipeline.MainEndpoint | pipes/pytrends-api-search-clean/src/main.py:65-78 | `main` over the four configured lists returns exactly the report `CohortsFrom` describes for them. |
| Decimal.DecimalRoundTrip | pipes/pytrends-api-search-clean/src/main.py:72 | The suffix `str(n)` reads back as n. |
| Decimal.DecimalStringInjective | pipes/pytrends-api-search-clean/src/main.py:72 | Distinct cohort numbers give distinct suffixes. |

## Left out

- I/O, as parameters instead of calls:
  - requests, pytrends and the BigQuery client calls;
  - `pendulum.now()` and `time.sleep`.
- Sleeping and printing are not performed; each sleep is recorded as a number of seconds.
- `client.get_table` at ingestion/src/ingestion.py:35 is not modelled; the model treats it as always succeeding. A missing table raises there in the source before any row is built.
- `bigquery.Client()` (ingestion/src/ingestion.py:33) and `client.insert_rows` (line 48) can raise in the source, and `/bigquery` turns that into a 500 with the exception's text. In the model the client always exists and the insert only returns an error list.
- Ingestion.JsonToBigQuery: returns the number of rows inserted. `json_to_bigquery` returns None and only prints that count (ingestion/src/ingestion.py:51).
- The pytrends session set-up at pipes/pytrends-api-search-clean/src/main.py:10-13 is not modelled, since it does I/O at import time. That covers the timezone offset and the request timeout.
- Timestamp.ParseLocalTime: accepts only a four-digit year and two-digit month, day, hour and minute, with calendar checks. pendulum's `from_format` is more lenient: its `MM`, `DD`, `HH` and `mm` tokens match one or two digits. A provider local time such as `2024-06-01 9:05` therefore builds rows in the source, while in the model `RowsToInsert` fails with ValueError. pendulum's token rules are not part of this model.
- Timestamp.ToDateTimeString: pads a year below 1000 to four digits. What pendulum emits for such a year is not part of this model.
- JSON decoding failures are treated as requests exceptions, as the `requests` versions that raise `requests.exceptions.JSONDecodeError` do. With older versions a non-JSON 200 body would escape as an uncaught 500.
- FastAPI request validation and routing are not modelled. That covers query parameters, the dict body of `/bigquery` and the `/` greeting endpoint. `HTTPException` becomes a `Reply` or `Report` status and detail.
- The exception text in `/bigquery` is a parameter (`describe`), since Python's `str(e)` of each exception is not modelled.
- A pandas DataFrame is reduced to its column names; its rows and the dtype conversion at pipes/pytrends-api-search-clean/src/main.py:41 are not modelled.
- The ingestion-time value written into a trends frame is not modelled, as it comes from the clock. Only the column's presence is.
- The attempt body can fail only where the trends service raises. In the model, adding the column and renaming the columns cannot raise, since column names are strings. Any `Raised` outcome leads to a retry, which is what the source does for an exception anywhere in the `try`.
- `main` keeps no record of sleeps or attempts. The model's `Report` adds them so that the properties can mention them.
- The loop of `main` is modelled as `RunCohorts` over a list parameter, and `MainEndpoint` calls it with the four configured lists.
- `utils/export_bq_schemas.py` is not part of this model. It only shells out to the `bq` tool and writes files.
- The commented-out code at ingestion/src/ingestion.py:6 and 86-90 is not modelled.
- The `/ingestion` handler issues one provider call, so `IngestionHandler` takes the provider's answer as a function of the query. The guard's "no call is made" shows only in that the result does not depend on that function.
