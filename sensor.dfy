/**
 * The `Sensor` object: its configuration, the in-memory document
 * `_sensor_data`, the persisted JSON file (`stored`, absent until the first
 * successful push) and the requests it has sent to Home Assistant. Each
 * method changes these fields the way the Python method does, and is proved
 * to leave them as the functions of the `Transitions` module prescribe.
 */
module SensorModel {
  import opened Wrappers
  import opened Utils
  import opened Document
  import opened Records
  import opened Forecasts
  import opened HubApi
  import opened Transitions

  /** An HTTP request sent to Home Assistant. */
  datatype Request =
    | Get(url: string, headers: map<string, string>)
    | Post(url: string, headers: map<string, string>, body: Doc)

  /** The error `update_sensor_with_full_data` raises when the run's pass is no hour of the day. */
  datatype FullDataError = InvalidRunHour(pass: int)

  /** `count` GET requests to the configuration endpoint. */
  function ConfigGets(count: nat, apiToken: string): seq<Request> {
    seq(count, _ => Get(ConfigUrl(), ApiHeaders(apiToken)))
  }

  /** The persisted file satisfies the state/loading invariant (an absent file restores to the template). */
  predicate CoherentFile(stored: Option<Doc>) {
    Coherent(Restored(stored))
  }

  class Sensor {
    const apiToken: string
    const entityId: string
    const metricSystem: bool
    /** The `utils` helpers the records are built with. */
    const lib: Library

    var latitude: real
    var longitude: real
    var timeZone: string

    /** `_sensor_data` */
    var sensorData: Doc
    /** The file `/data/<entity_id>.json`: its document, or None while it does not exist. */
    var stored: Option<Doc>
    /** Every request sent so far, oldest first. */
    var requests: seq<Request>

    /** The POST that publishes `body` as this sensor's state. */
    function PushOf(body: Doc): Request {
      Post(ApiUrl(entityId), ApiHeaders(apiToken), body)
    }

    /**
     * The field assignments of `__init__`, before it fetches the hub's
     * configuration; `file` is what the sensor's file holds at start-up.
     */
    constructor Init(apiToken: string, entityId: string, unitSystem: string, lib: Library, file: Option<Doc>)
      ensures this.apiToken == apiToken && this.entityId == entityId && this.lib == lib
      ensures metricSystem <==> unitSystem == "Metric"
      ensures stored == file && requests == []
      ensures sensorData == DefaultDoc()
    {
      this.apiToken := apiToken;
      this.entityId := entityId;
      this.metricSystem := unitSystem == "Metric";
      this.lib := lib;
      latitude, longitude, timeZone := 0.0, 0.0, "";
      sensorData := DefaultDoc();
      stored := file;
      requests := [];
    }

    /**
     * `__init__`: a sensor is obtained only when the configuration fetch
     * succeeds, with the hub's coordinates and time zone, after at most three
     * GET requests; otherwise construction raises.
     */
    static method Create(apiToken: string, entityId: string, unitSystem: string, lib: Library,
                         file: Option<Doc>, replies: nat -> Reply)
      returns (r: Result<Sensor, ConfigError>)
      ensures r.Success? <==> FetchConfig(replies).Success?
      ensures r.Failure? ==> r.error == ConfigUnavailable
      ensures r.Success? ==>
        && fresh(r.value)
        && r.value.apiToken == apiToken && r.value.entityId == entityId
        && (r.value.metricSystem <==> unitSystem == "Metric")
        && r.value.latitude == FetchConfig(replies).value.config.latitude
        && r.value.longitude == FetchConfig(replies).value.config.longitude
        && r.value.timeZone == FetchConfig(replies).value.config.timeZone
        && r.value.lib == lib
        && r.value.sensorData == DefaultDoc()
        && r.value.stored == file
        && r.value.requests == ConfigGets(FetchConfig(replies).value.attempts, apiToken)
    {
      var s := new Sensor.Init(apiToken, entityId, unitSystem, lib, file);
      var outcome := s.GetHAConfig(replies);
      if outcome.Fail? {
        return Failure(ConfigUnavailable);
      }
      return Success(s);
    }

    /**
     * `_get_HA_config`: up to three GETs of the configuration endpoint,
     * stopping at the first success and taking latitude, longitude and time
     * zone from it; after three failures it raises and sets nothing.
     */
    method GetHAConfig(replies: nat -> Reply) returns (outcome: Outcome<ConfigError>)
      modifies this`latitude, this`longitude, this`timeZone, this`requests
      ensures outcome.Pass? <==> FetchConfig(replies).Success?
      ensures outcome.Fail? ==> outcome.error == ConfigUnavailable
      ensures requests == old(requests) + ConfigGets(ConfigAttempts(replies), apiToken)
      ensures outcome.Pass? ==>
        && latitude == FetchConfig(replies).value.config.latitude
        && longitude == FetchConfig(replies).value.config.longitude
        && timeZone == FetchConfig(replies).value.config.timeZone
      ensures outcome.Fail? ==>
        latitude == old(latitude) && longitude == old(longitude) && timeZone == old(timeZone)
    {
      var url := ConfigUrl();
      var headers := ApiHeaders(apiToken);
      var count: nat := 0;
      while count < MaxConfigAttempts
        invariant count <= MaxConfigAttempts
        invariant FetchFrom(replies, count) == FetchConfig(replies)
        invariant requests == old(requests) + ConfigGets(count, apiToken)
        invariant latitude == old(latitude) && longitude == old(longitude) && timeZone == old(timeZone)
      {
        var response := replies(count);
        requests := requests + [Get(url, headers)];
        assert ConfigGets(count + 1, apiToken) == ConfigGets(count, apiToken) + [Get(url, headers)];
        if IsSuccess(response.status) {
          latitude := response.config.latitude;
          longitude := response.config.longitude;
          timeZone := response.config.timeZone;
          return Pass;
        }
        count := count + 1;
      }
      return Fail(ConfigUnavailable);
    }

    /** `__restore_sensor_data`: reload the persisted document, or the template. */
    method RestoreSensorData()
      modifies this`sensorData
      ensures sensorData == Restored(stored)
    {
      if stored.Some? {
        sensorData := stored.value;
      } else {
        sensorData := DefaultDoc();
      }
    }

    /** `__store_sensor_data`: overwrite the file with the in-memory document. */
    method StoreSensorData()
      modifies this`stored
      ensures stored == Some(sensorData)
    {
      stored := Some(sensorData);
    }

    /**
     * `__send_data_to_ha`, where `status` is the reply's status code: POST the
     * in-memory document, and persist it only when the hub answered 200 or 201.
     */
    method SendDataToHa(status: int)
      modifies this`stored, this`requests
      ensures requests == old(requests) + [PushOf(sensorData)]
      ensures stored == Persist(old(stored), sensorData, status)
      ensures IsSuccess(status) ==> stored == Some(sensorData)
      ensures !IsSuccess(status) ==> stored == old(stored)
    {
      var url := ApiUrl(entityId);
      var headers := ApiHeaders(apiToken);
      requests := requests + [Post(url, headers, sensorData)];
      if !IsSuccess(status) {
        return;
      }
      StoreSensorData();
    }

    /** `restore_ha_sensor`: republish the persisted document. */
    method RestoreHaSensor(status: int)
      modifies this`sensorData, this`stored, this`requests
      ensures sensorData == Restored(old(stored))
      ensures stored == Persist(old(stored), sensorData, status)
      ensures IsSuccess(status) ==> Restored(stored) == Restored(old(stored))
      ensures requests == old(requests) + [PushOf(sensorData)]
    {
      RestoreSensorData();
      SendDataToHa(status);
    }

    /**
     * `set_sensor_base_data`: announce the run (`date`, `pass`) whose data
     * has become available.
     */
    method SetSensorBaseData(date: int, pass: int, status: int)
      modifies this`sensorData, this`stored, this`requests
      ensures sensorData == WithBaseData(Restored(old(stored)), date, pass)
      ensures stored == Persist(old(stored), sensorData, status)
      ensures requests == old(requests) + [PushOf(sensorData)]
      ensures CoherentFile(old(stored)) ==> CoherentFile(stored)
    {
      RestoreSensorData();
      var current := sensorData.attributes.current;
      if current.IsEmpty() {
        sensorData := sensorData.(attributes := sensorData.attributes.(current := UnknownRun));
      } else if current.date.Some? && current.pass.Some? {
        if current.date.value != Known(date) || current.pass.value != Known(pass) {
          sensorData := sensorData.(state := Initializing);
          sensorData := sensorData.(attributes := sensorData.attributes.(loading := Started(date, pass)));
        }
      }
      SendDataToHa(status);
    }

    /** `update_sensor_during_loading`: report that the run has reached `offset`. */
    method UpdateSensorDuringLoading(date: int, pass: int, offset: int, status: int)
      modifies this`sensorData, this`stored, this`requests
      ensures sensorData == WithLoading(Restored(old(stored)), date, pass, offset)
      ensures stored == Persist(old(stored), sensorData, status)
      ensures requests == old(requests) + [PushOf(sensorData)]
      ensures CoherentFile(old(stored)) ==> CoherentFile(stored)
    {
      RestoreSensorData();
      sensorData := sensorData.(state := Loading);
      sensorData := sensorData.(attributes := sensorData.attributes.(loading := AtOffset(date, pass, offset)));
      SendDataToHa(status);
    }

    /**
     * `update_sensor_with_full_data`: publish the finished run. `today` is the
     * day number of `datetime.today()` and `now` the instant stamped as
     * `last_updated`. It raises, without pushing or persisting, when the
     * first detailed timestamp cannot be built.
     */
    method UpdateSensorWithFullData(data: GfsData, days: seq<DayEntry>, detailed: bool,
                                    today: int, now: int, status: int)
      returns (outcome: Outcome<FullDataError>)
      modifies this`sensorData, this`stored, this`requests
      ensures outcome.Fail? <==> RaisesOnHour(data, detailed)
      ensures outcome.Fail? ==>
        && outcome.error == InvalidRunHour(data.info.pass)
        && sensorData == Prefilled(Restored(old(stored)), data.info, detailed, metricSystem, now)
        && stored == old(stored) && requests == old(requests)
      ensures outcome.Pass? ==>
        && sensorData == WithFullData(Restored(old(stored)), data, days, detailed, metricSystem, lib, today, now)
        && stored == Persist(old(stored), sensorData, status)
        && requests == old(requests) + [PushOf(sensorData)]
      ensures CoherentFile(old(stored)) ==> CoherentFile(stored)
    {
      RestoreSensorData();
      ResetForFullData(data.info, detailed, now);
      ghost var prefilled := sensorData;
      if detailed {
        outcome := AppendDetailedForecast(data.info, data.samples);
        if outcome.Fail? {
          return;
        }
      }
      assert prefilled.attributes.forecast == [];
      assert detailed ==> prefilled.attributes.detailedForecast == Some([]);
      assert [] + DailyForecast(days, today, metricSystem, lib) == DailyForecast(days, today, metricSystem, lib);
      assert [] + DetailedRecords(data.info, data.samples, metricSystem, lib)
          == DetailedRecords(data.info, data.samples, metricSystem, lib);
      AppendDailyForecast(days, today);
      assert sensorData == WithFullData(Restored(old(stored)), data, days, detailed, metricSystem, lib, today, now);
      SendDataToHa(status);
      return Pass;
    }

    /**
     * The first part of `update_sensor_with_full_data`: mark the run
     * finished, record it in `current`, set the unit labels, clear `loading`
     * and `forecast`, stamp `last_updated`, and start an empty
     * `detailed_forecast` when detailed output is asked for.
     */
    method ResetForFullData(info: Info, detailed: bool, now: int)
      modifies this`sensorData
      ensures sensorData == Prefilled(old(sensorData), info, detailed, metricSystem, now)
    {
      sensorData := sensorData.(state := Finished);
      sensorData := sensorData.(attributes := sensorData.attributes.(
        current := Current(Some(Known(info.date)), Some(Known(info.pass)),
                           Some(info.usedLatitude), Some(info.usedLongitude))));
      if metricSystem {
        sensorData := sensorData.(attributes := sensorData.attributes.(units := Some(UnitLabels("hPa", "m/s", "mm", "°C"))));
      } else {
        sensorData := sensorData.(attributes := sensorData.attributes.(units := Some(UnitLabels("inHg", "mph", "inch", "°F"))));
      }
      sensorData := sensorData.(attributes := sensorData.attributes.(loading := Idle));
      sensorData := sensorData.(attributes := sensorData.attributes.(forecast := []));
      sensorData := sensorData.(attributes := sensorData.attributes.(lastUpdated := Some(now)));
      if detailed {
        sensorData := sensorData.(attributes := sensorData.attributes.(detailedForecast := Some([])));
      }
    }

    /**
     * The loop over the offsets of `gfs_data`: append one detailed record per
     * offset to the (already started) `detailed_forecast`. Building the first
     * timestamp raises when the pass is no hour of the day, before anything
     * is appended.
     */
    method AppendDetailedForecast(info: Info, samples: seq<OffsetSample>) returns (outcome: Outcome<FullDataError>)
      requires sensorData.attributes.detailedForecast.Some?
      modifies this`sensorData
      ensures outcome.Fail? <==> |samples| > 0 && !(0 <= info.pass < 24)
      ensures outcome.Fail? ==> outcome.error == InvalidRunHour(info.pass) && sensorData == old(sensorData)
      ensures outcome.Pass? ==> sensorData == old(sensorData).(attributes := old(sensorData).attributes.(
        detailedForecast := Some(old(sensorData).attributes.detailedForecast.value
                                 + DetailedRecords(info, samples, metricSystem, lib))))
    {
      ghost var start := sensorData;
      ghost var before := start.attributes.detailedForecast.value;
      assert before + DetailedRecords(info, samples[..0], metricSystem, lib) == before;
      var i := 0;
      while i < |samples|
        invariant 0 <= i <= |samples|
        invariant i > 0 ==> 0 <= info.pass < 24
        invariant sensorData == start.(attributes := start.attributes.(
          detailedForecast := Some(start.attributes.detailedForecast.value
                                   + DetailedRecords(info, samples[..i], metricSystem, lib))))
      {
        if !(0 <= info.pass < 24) {
          return Fail(InvalidRunHour(info.pass));
        }
        var entry := DetailedRecordOf(info, samples[i].offset, samples[i].sample, metricSystem, lib);
        assert samples[..i + 1][..i] == samples[..i];
        assert before + DetailedRecords(info, samples[..i + 1], metricSystem, lib)
            == (before + DetailedRecords(info, samples[..i], metricSystem, lib)) + [entry];
        sensorData := sensorData.(attributes := sensorData.attributes.(
          detailedForecast := Some(sensorData.attributes.detailedForecast.value + [entry])));
        i := i + 1;
      }
      assert samples[..i] == samples;
      return Pass;
    }

    /**
     * The loop over `day_forecast`: append the record of every day dated
     * strictly after `today` to `forecast`, in input order.
     */
    method AppendDailyForecast(days: seq<DayEntry>, today: int)
      modifies this`sensorData
      ensures sensorData == old(sensorData).(attributes := old(sensorData).attributes.(
        forecast := old(sensorData).attributes.forecast + DailyForecast(days, today, metricSystem, lib)))
    {
      ghost var start := sensorData;
      var j := 0;
      while j < |days|
        invariant 0 <= j <= |days|
        invariant sensorData == start.(attributes := start.attributes.(
          forecast := start.attributes.forecast + DailyForecast(days[..j], today, metricSystem, lib)))
      {
        assert days[..j + 1][..j] == days[..j];
        if days[j].date > today {
          var record := ForecastRecordOf(days[j].aggregate, days[j].date, metricSystem, lib);
          sensorData := sensorData.(attributes := sensorData.attributes.(
            forecast := sensorData.attributes.forecast + [record]));
        }
        j := j + 1;
      }
      assert days[..j] == days;
    }
  }

  /**
   * A client of the class: a fresh install announced twice, one progress
   * tick, a push the hub rejects, and the finished run with one future day.
   */
  method FreshInstallScenario(lib: Library, day: DayAggregate, today: int, now: int)
  {
    var s := new Sensor.Init("token", "sensor.gfs", "Metric", lib, None);
    s.SetSensorBaseData(today, 0, 201);
    assert s.sensorData.state == Blank && s.sensorData.attributes.current == UnknownRun;
    s.SetSensorBaseData(today, 0, 200);
    assert s.sensorData.state == Initializing && s.sensorData.attributes.loading == Started(today, 0);
    s.UpdateSensorDuringLoading(today, 0, 6, 200);
    assert s.stored.Some? && s.stored.value.attributes.loading == AtOffset(today, 0, 6);
    var saved := s.stored;
    s.UpdateSensorDuringLoading(today, 0, 9, 500);
    assert s.stored == saved;
    var info := Info(today, 0, 52.0, 5.0);
    var days := [DayEntry(today, day), DayEntry(today + 1, day)];
    var outcome := s.UpdateSensorWithFullData(GfsData(info, []), days, false, today, now, 200);
    ForecastsAreFutureDays(days, today, true, lib);
    assert FutureDays(days, today) == [DayEntry(today + 1, day)];
    assert outcome.Pass?;
    assert s.sensorData.state == Finished && s.sensorData.attributes.loading == Idle;
    assert s.sensorData.attributes.units == Some(UnitLabels("hPa", "m/s", "mm", "°C"));
    assert s.sensorData.attributes.current.date == Some(Known(today));
    assert |s.sensorData.attributes.forecast| == 1 && s.sensorData.attributes.forecast[0].date == today + 1;
    assert s.stored == Some(s.sensorData);
  }
}
