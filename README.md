# GFS forecast sensor — a Dafny model

This project models the `Sensor` class of the GFS forecast add-on for Home
Assistant (`addon-gfsforecast/rootfs/sensor.py`). The class keeps one status
document for the forecast. It persists that document in a JSON file and
publishes it to Home Assistant as the state of one entity.

Every transition follows the same order: restore, mutate, push, then persist
only on success. It reloads the persisted document, or the default template
when there is none. It changes the document and POSTs it. It writes the
document back to the file only when the hub answers 200 or 201. The three
transitions are:

- `set_sensor_base_data`: announces a model run `(date, pass)`;
- `update_sensor_during_loading`: reports progress at an hour offset;
- `update_sensor_with_full_data`: publishes the finished run with its daily
  `forecast` and, optionally, the per-offset `detailed_forecast`.

At construction the sensor fetches the hub's coordinates and time zone. It
makes at most three GET attempts and raises after three failures.

Modules:

- `Document` (document.dfy): the document as datatypes, the default template,
  and the invariant `Coherent` ("state and loading describe the same stage").
- `Records` (records.dfy): Python's `round`, and the per-day and per-offset
  records.
- `Forecasts` (forecasts.dfy): the two list builders, which append at the end
  as the loops do. A reference filter from the front is proved equal to the
  daily builder.
- `HubApi` (hub_api.dfy): the URLs, the headers, the success statuses, and the
  config fetch as a function of the replies.
- `Transitions` (transitions.dfy): restore, persist and the document each
  transition pushes, as functions, with the lemmas about them.
- `SensorModel` (sensor.dfy): the `Sensor` class. Its fields are the
  configuration, `sensorData` (`_sensor_data`), `stored` (the JSON file, `None`
  while it does not exist) and `requests` (every HTTP request sent). Each
  method is proved to leave these fields as the `Transitions` functions
  prescribe.
- `Utils` (utils.dfy): the `utils` helpers, as a record of uninterpreted total
  functions passed in.
- `Wrappers` (wrappers.dfy): Option, Result, Outcome.

Modelling choices:

- The status of each POST is a parameter of the transition. The replies to the
  config GETs are a function from attempt number to reply.
- Dates are day numbers. `datetime.today()` is a `today` parameter, and the
  `last_updated` instant is a `now` parameter.
- The timestamp of a detailed record is its wall-clock hour,
  `24 * date + pass + offset`. Python adds a `timedelta` to an aware
  `datetime` in wall-clock time.

In four places the code does something one might not expect; the model
follows the code:

- On a fresh install, the first `set_sensor_base_data` only seeds `current`
  with the `'unknown'` sentinel and leaves `state` as `""`. The second call
  then reaches `Initializing`, because `'unknown'` never equals a real run
  (`FreshInstallNeedsSecondAnnouncement`). Announcing the same run again is
  idempotent only once `current` is non-empty (`BaseDataIdempotent`). From any
  document, the third announcement changes nothing (`BaseDataSettles`).
- When detailed output is not requested, `detailed_forecast` is not removed.
  The list persisted by an earlier detailed run is kept
  (`FullDataEffect`, last clauses).
- `update_sensor_with_full_data` raises when detailed output is requested,
  there is at least one offset, and the run's pass is not an hour 0..23. The
  error comes from the `datetime` constructor. In that case it neither pushes
  nor persists.
- `set_sensor_base_data` compares the announced run with `current`, not with
  `loading`. Re-announcing the run that is being loaded therefore sends the
  document from Loading back to Initializing and drops the offset
  (`MidRunReannounce`).

## Model

| member | source | states |
|---|---|---|
| `Document.DefaultDoc` | addon-gfsforecast/rootfs/sensor.py:58-68 | the template has state `""`, name "GFS forecast", empty `current`, empty `forecast`, empty `loading` and none of the optional keys |
| `Records.Round` | addon-gfsforecast/rootfs/sensor.py:174-184 | `round(x)` is within 1/2 of x, and on a tie it is even; these two facts determine it |
| `Records.RoundTenth` | addon-gfsforecast/rootfs/sensor.py:148 | `round(x, 1)` is a multiple of 0.1 within 0.05 of x, and on a tie it is an even number of tenths |
| `Records.ForecastRecordOf` | addon-gfsforecast/rootfs/sensor.py:167-185 | a day record carries its date; `temperature` is present iff `temperature_max > -999` and `templow` iff `temperature_min < 999`, each as the rounded value; `wind_speed_bft` is present iff metric; `wind_speed` is the raw wind speed |
| `Records.DetailedRecordOf` | addon-gfsforecast/rootfs/sensor.py:131-157 | a detailed record's `offset` is the key's integer, its time is the run's date at hour `pass` plus `offset` hours, `windspeed_bft` is present iff metric, and pressure is Pa/100 to within 0.05 |
| `Forecasts.DailyForecast` | addon-gfsforecast/rootfs/sensor.py:161-163 | the forecast loop yields at most one record per input day, and every record is dated strictly after today |
| `Forecasts.FutureDaysAppend` | addon-gfsforecast/rootfs/sensor.py:161-163 | filtering on "after today" distributes over concatenation, so it keeps input order |
| `Forecasts.FutureDaysMembers` | addon-gfsforecast/rootfs/sensor.py:161-163 | a day is kept iff it is in the input and dated after today |
| `Forecasts.ForecastsAreFutureDays` | addon-gfsforecast/rootfs/sensor.py:161-163 | the forecast loop's list is exactly the records of the future days, one each, in input order |
| `Forecasts.DetailedRecordsShape` | addon-gfsforecast/rootfs/sensor.py:126-159 | `detailed_forecast` has one record per offset, in order; each record has its own offset, and a Beaufort force iff metric |
| `HubApi.ApiUrl` | addon-gfsforecast/rootfs/sensor.py:28-29 | the state URL is the states prefix `http://supervisor/core/api/states/` followed by the entity id |
| `HubApi.ApiUrlInjective` | addon-gfsforecast/rootfs/sensor.py:28-29 | different entities are published at different URLs |
| `HubApi.ConfigUrlIsNoStateUrl` | addon-gfsforecast/rootfs/sensor.py:190-191 | the configuration URL is no entity's state URL |
| `HubApi.ConfigUrl` | addon-gfsforecast/rootfs/sensor.py:191 | no contract; the configuration endpoint, used by `GetHAConfig` and shown distinct from every state URL by `ConfigUrlIsNoStateUrl` |
| `HubApi.IsSuccess` | addon-gfsforecast/rootfs/sensor.py:42 | no contract; status 200 or 201, used by `Persist`, `SendDataToHa` and `FetchFrom` |
| `SensorModel.Sensor.PushOf` | addon-gfsforecast/rootfs/sensor.py:39-41 | no contract; the POST of a document to the entity's URL with the API headers, used by `SendDataToHa` |
| `HubApi.ApiHeaders` | addon-gfsforecast/rootfs/sensor.py:31-36 | the headers are exactly Authorization and Content-Type, the latter "application/json" |
| `HubApi.HeadersCarryToken` | addon-gfsforecast/rootfs/sensor.py:31-36 | Authorization is "Bearer " followed by the token, so the token can be read back from it |
| `HubApi.FetchFrom` | addon-gfsforecast/rootfs/sensor.py:193-206 | the fetch succeeds at the first 2xx (200/201) reply among the first three attempts and returns that reply's configuration; it fails iff all three attempts fail |
| `HubApi.ConfigAttempts` | addon-gfsforecast/rootfs/sensor.py:193-205 | the config fetch makes between one and three GET requests |
| `HubApi.FetchConfigFirstSuccess` | addon-gfsforecast/rootfs/sensor.py:194-202 | if attempt i (i < 3) is the first success, the fetch uses i + 1 requests and reply i's configuration |
| `Transitions.UnitsFor` | addon-gfsforecast/rootfs/sensor.py:113-122 | the labels are hPa, m/s, mm and °C when metric, and inHg, mph, inch and °F otherwise |
| `Transitions.SaveRestoreRoundTrip` | addon-gfsforecast/rootfs/sensor.py:38-45 | after a push answered 200 or 201, the next restore returns exactly the pushed document |
| `Transitions.FailedPushIsForgotten` | addon-gfsforecast/rootfs/sensor.py:42-44 | after any other status the file is unchanged, so the next transition starts from the document the failed one started from |
| `Transitions.Restored` | addon-gfsforecast/rootfs/sensor.py:51-68 | restore gives exactly the persisted document; without a file it gives the template: state `""`, empty `current`, empty `forecast` and empty `loading` |
| `Transitions.Persist` | addon-gfsforecast/rootfs/sensor.py:38-45 | after a push the file is either unchanged or the pushed document, and it is the pushed document whenever the status is 200 or 201 (both directions in `SaveRestoreRoundTrip` and `FailedPushIsForgotten`) |
| `Transitions.WithBaseData` | addon-gfsforecast/rootfs/sensor.py:75-92 | the announced document keeps name and forecast, always has a non-empty `current`, and is coherent when the restored one is; its full effect is `BaseDataEffect` |
| `Transitions.WithLoading` | addon-gfsforecast/rootfs/sensor.py:94-102 | the progress document is coherent and keeps `current`; its full effect is `LoadingEffect` |
| `Transitions.Prefilled` | addon-gfsforecast/rootfs/sensor.py:105-127 | the reset document is Finished, coherent, with an empty `forecast`, and an empty `detailed_forecast` when detailed output is requested |
| `Transitions.RaisesOnHour` | addon-gfsforecast/rootfs/sensor.py:126-133 | the `ValueError` of the `datetime` constructor: raised iff detailed output is requested, `gfs_data` has at least one offset, and the pass is outside 0..23 |
| `Transitions.WithFullData` | addon-gfsforecast/rootfs/sensor.py:104-165 | the finished document is Finished, coherent, and has only future days in `forecast`; its full effect is `FullDataEffect` |
| `Forecasts.DetailedRecords` | addon-gfsforecast/rootfs/sensor.py:128-159 | the detailed loop yields one record per offset, each with its own offset; per-record content in `DetailedRecordsShape` |
| `HubApi.FetchConfig` | addon-gfsforecast/rootfs/sensor.py:193-206 | the fetch succeeds after 1 to 3 attempts with the configuration of a successful reply, and fails iff none of the three replies is 200 or 201 |
| `Transitions.BaseDataEffect` | addon-gfsforecast/rootfs/sensor.py:75-92 | an empty `current` is seeded with the 'unknown' sentinel and nothing else changes; otherwise only `state` and `loading` may change, `current` is kept, and the document changes iff `current` has both date and pass, they differ from the new run, and the document is not already Initializing that run; the result is Initializing that run iff it already was or such a difference exists; forecast, units and detailed list are untouched |
| `Transitions.BaseDataIdempotent` | addon-gfsforecast/rootfs/sensor.py:84-91 | with a non-empty `current`, announcing the same run twice equals announcing it once |
| `Transitions.BaseDataSettles` | addon-gfsforecast/rootfs/sensor.py:78-91 | from any document, a third announcement of the same run equals the second |
| `Transitions.FreshInstallNeedsSecondAnnouncement` | addon-gfsforecast/rootfs/sensor.py:78-91 | on a fresh install the first announcement leaves state `""` with the sentinel in `current`, and the second reaches Initializing with the run in `loading` |
| `Transitions.MidRunReannounce` | addon-gfsforecast/rootfs/sensor.py:84-91 | while a new run is Loading, announcing that run again (it still differs from `current`) moves the document back to Initializing with `loading = {date, pass}` |
| `Transitions.LoadingEffect` | addon-gfsforecast/rootfs/sensor.py:94-102 | progress sets state Loading and `loading = {date, pass, offset}` whatever `current` holds, and changes nothing else |
| `Transitions.FullDataEffect` | addon-gfsforecast/rootfs/sensor.py:104-165 | the finished document has state Finished, `current` = the run's identity and coordinates, `loading` cleared, the unit labels of the unit system, `last_updated` stamped, `forecast` = the records of the future days in input order, and `detailed_forecast` rebuilt (one record per offset, with its offset and a Beaufort force iff metric) when requested, otherwise kept as restored; name, icon and friendly name are kept |
| `Transitions.TransitionsKeepCoherent` | addon-gfsforecast/rootfs/sensor.py:75-127 | the template is coherent, and every transition maps a coherent document to a coherent one: `loading` empty when `""` or Finished, `{date, pass}` when Initializing, `{date, pass, offset}` when Loading |
| `SensorModel.Sensor.Init` | addon-gfsforecast/rootfs/sensor.py:21-25 | the token and entity id are stored, and the unit system is metric iff it is "Metric" |
| `SensorModel.Sensor.Create` | addon-gfsforecast/rootfs/sensor.py:21-26 | a sensor is obtained iff the config fetch succeeds; it then holds the given token, entity id, unit system and helpers, the fetched latitude, longitude and time zone, the template in memory and the given file, and has sent only the config GETs |
| `SensorModel.Sensor.GetHAConfig` | addon-gfsforecast/rootfs/sensor.py:190-206 | the loop sends as many GETs as the config fetch needs (at most three); on success it sets the coordinates and time zone from the first successful reply; otherwise it raises and sets nothing |
| `SensorModel.Sensor.RestoreSensorData` | addon-gfsforecast/rootfs/sensor.py:51-68 | the in-memory document becomes the persisted one, or the template |
| `SensorModel.Sensor.StoreSensorData` | addon-gfsforecast/rootfs/sensor.py:70-73 | the file becomes the in-memory document |
| `SensorModel.Sensor.SendDataToHa` | addon-gfsforecast/rootfs/sensor.py:38-45 | exactly one POST of the in-memory document to the entity's URL with the API headers; the file becomes that document iff the status is 200 or 201, and is unchanged otherwise |
| `SensorModel.Sensor.RestoreHaSensor` | addon-gfsforecast/rootfs/sensor.py:47-49 | republishes the persisted document (or the template); a successful push leaves what restore returns unchanged |
| `SensorModel.Sensor.SetSensorBaseData` | addon-gfsforecast/rootfs/sensor.py:75-92 | pushes `WithBaseData` of the restored document and persists it only on success; a coherent file stays coherent |
| `SensorModel.Sensor.UpdateSensorDuringLoading` | addon-gfsforecast/rootfs/sensor.py:94-102 | pushes `WithLoading` of the restored document and persists it only on success; a coherent file stays coherent |
| `SensorModel.Sensor.UpdateSensorWithFullData` | addon-gfsforecast/rootfs/sensor.py:104-165 | raises iff detailed output is requested, there is an offset and the pass is not an hour of the day; then nothing is pushed or persisted. Otherwise it pushes `WithFullData` of the restored document and persists it only on success; a coherent file stays coherent |
| `SensorModel.Sensor.ResetForFullData` | addon-gfsforecast/rootfs/sensor.py:106-127 | the document is marked Finished with the run in `current`, the unit labels set, `loading` and `forecast` cleared, `last_updated` stamped, and `detailed_forecast` started empty when requested |
| `SensorModel.Sensor.AppendDetailedForecast` | addon-gfsforecast/rootfs/sensor.py:128-159 | appends one record per offset, in order, or raises before appending anything when the pass is not an hour of the day |
| `SensorModel.Sensor.AppendDailyForecast` | addon-gfsforecast/rootfs/sensor.py:161-163 | appends the records of the future days, in input order |

## Left out

- The `utils` helpers (`get_wind_info`, `convert_ms_to_bft`, `get_wind_rose`, `ms_to_kmh`, `get_condition`) are not part of this model. They are uninterpreted functions in a `Library` value, and every property holds for any such functions.
- Floating point: raw values are exact reals. `round` is half-to-even on the exact value, and binary-float representation effects are not modelled.
- Timestamps are not formatted. `last_updated` is the abstract instant `now`, a forecast record's `datetime` is its day number, and a detailed record's `datetime` is its wall-clock hour. ISO strings, UTC offsets and `ZoneInfo` errors for an unknown time zone are left out.
- The wall clock (`datetime.now`, `datetime.today`) is read only through the `now` and `today` parameters.
- `UpdateSensorWithFullData`: the source reads `datetime.today()` (local naive time) once per `day_forecast` entry, so a loop that crosses midnight compares later days with a later date; the model reads one `today` for the whole call.
- HTTP is reduced to a log of requests plus a status per POST and a reply per GET. Exceptions raised by `requests` (connection errors) and the response text that is logged are left out.
- File I/O is reduced to the `stored` field. The file path `/data/<entity_id>.json` is left out, as are I/O errors. `json.dump` followed by `json.load` is taken to return the same document, because the document holds only strings, numbers, lists and string-keyed objects.
- Run identities are compared as values: the model assumes `gfs_data['info']['date']` is the same ISO string that `date.isoformat()` gives for that day and that `gfs_data['info']['pass']` is an int. If either fails in the deployed pipeline, every announcement after a finished run reaches Initializing, which the model does not show.
- Malformed inputs are not representable, so the `KeyError`/`ValueError` they raise in Python is left out. This covers a stored document without `attributes` or `current`, a `gfs_data` without `'info'`, an offset key that `int()` rejects, and missing keys in a sample or day aggregate. It also covers a 200/201 config reply whose body is not JSON or lacks `latitude`, `longitude` or `time_zone`: Python raises at once and skips the remaining attempts, while a model `Reply` always carries a parsed configuration.
- Day numbers are unbounded: the `OverflowError` that adding the offset raises past year 9999 is left out.
- `gfs_data` is split into its `'info'` entry and its offset entries, with offsets already parsed. `day_forecast` is a sequence of (date, aggregate) pairs in dictionary order. The `'info'` skip in the detailed loop is therefore structural.
- Before the first restore, `_sensor_data` is the empty dictionary. The model starts from the template instead. This is never observable, because every public operation restores first.
- `get_gps_position`, a plain getter of latitude and longitude, is not part of this model.
- Logging and the one-second `time.sleep` between config attempts are left out.
