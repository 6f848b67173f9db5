/**
 * The sensor's state machine as functions on documents: restore, persist,
 * and the document each of the three transitions pushes. The `Sensor` class
 * performs these steps in place; the lemmas here state what they achieve.
 */
module Transitions {
  import opened Wrappers
  import opened Utils
  import opened Document
  import opened Records
  import opened Forecasts
  import opened HubApi

  /** `__restore_sensor_data`: the persisted document, or the template when there is none. */
  function Restored(stored: Option<Doc>): (r: Doc)
    ensures stored.Some? ==> r == stored.value
    ensures stored.None? ==> r == DefaultDoc() && r.state == Blank && r.attributes.current.IsEmpty()
                              && r.attributes.forecast == [] && r.attributes.loading == Idle
  {
    if stored.Some? then stored.value else DefaultDoc()
  }

  /** `__send_data_to_ha` followed by `__store_sensor_data` on success: the file after a push with `status`. */
  function Persist(stored: Option<Doc>, pushed: Doc, status: int): (r: Option<Doc>)
    ensures r == stored || r == Some(pushed)
    ensures r == Some(pushed) || !IsSuccess(status)
  {
    if IsSuccess(status) then Some(pushed) else stored
  }

  /** The document `set_sensor_base_data` pushes, given the restored document `d`. */
  function WithBaseData(d: Doc, date: int, pass: int): (r: Doc)
    ensures r.name == d.name && r.attributes.forecast == d.attributes.forecast
    ensures !r.attributes.current.IsEmpty()
    ensures Coherent(d) ==> Coherent(r)
  {
    var current := d.attributes.current;
    if current.IsEmpty() then
      d.(attributes := d.attributes.(current := UnknownRun))
    else if current.date.Some? && current.pass.Some?
         && (current.date.value != Known(date) || current.pass.value != Known(pass)) then
      d.(state := Initializing, attributes := d.attributes.(loading := Started(date, pass)))
    else
      d
  }

  /** The document `update_sensor_during_loading` pushes, given the restored document `d`. */
  function WithLoading(d: Doc, date: int, pass: int, offset: int): (r: Doc)
    ensures Coherent(r) && r.attributes.current == d.attributes.current
  {
    d.(state := Loading, attributes := d.attributes.(loading := AtOffset(date, pass, offset)))
  }

  /** The unit labels of a unit system. */
  function UnitsFor(metric: bool): (u: UnitLabels)
    ensures metric ==> u == UnitLabels("hPa", "m/s", "mm", "°C")
    ensures !metric ==> u == UnitLabels("inHg", "mph", "inch", "°F")
  {
    if metric then UnitLabels("hPa", "m/s", "mm", "°C") else UnitLabels("inHg", "mph", "inch", "°F")
  }

  /** The input of `update_sensor_with_full_data`: `gfs_data`, split into its 'info' and its offsets. */
  datatype GfsData = GfsData(info: Info, samples: seq<OffsetSample>)

  /**
   * The document `update_sensor_with_full_data` holds once it has reset the
   * restored document `d` and before any list entry is added; `now` is the
   * instant it stamps as `last_updated`.
   */
  function Prefilled(d: Doc, info: Info, detailed: bool, metric: bool, now: int): (r: Doc)
    ensures Coherent(r) && r.state == Finished && r.attributes.forecast == []
    ensures detailed ==> r.attributes.detailedForecast == Some([])
  {
    d.(state := Finished,
       attributes := d.attributes.(
         current := Current(Some(Known(info.date)), Some(Known(info.pass)),
                            Some(info.usedLatitude), Some(info.usedLongitude)),
         units := Some(UnitsFor(metric)),
         loading := Idle,
         forecast := [],
         lastUpdated := Some(now),
         detailedForecast := if detailed then Some([]) else d.attributes.detailedForecast))
  }

  /**
   * Building the first detailed timestamp raises (Python's `datetime` accepts
   * hours 0..23 only) when detailed output is asked for, there is an offset,
   * and the pass is not an hour of the day.
   */
  predicate RaisesOnHour(data: GfsData, detailed: bool)
    ensures RaisesOnHour(data, detailed) ==> detailed && (data.info.pass < 0 || 23 < data.info.pass)
    ensures RaisesOnHour(data, detailed) ==> data.samples != []
    ensures detailed && data.samples != [] && (data.info.pass < 0 || 23 < data.info.pass) ==> RaisesOnHour(data, detailed)
  {
    detailed && |data.samples| > 0 && !(0 <= data.info.pass < 24)
  }

  /** The document `update_sensor_with_full_data` pushes when it does not raise. */
  function WithFullData(d: Doc, data: GfsData, days: seq<DayEntry>, detailed: bool,
                        metric: bool, lib: Library, today: int, now: int): (r: Doc)
    ensures Coherent(r) && r.state == Finished
    ensures forall k :: 0 <= k < |r.attributes.forecast| ==> r.attributes.forecast[k].date > today
  {
    var p := Prefilled(d, data.info, detailed, metric, now);
    p.(attributes := p.attributes.(
         forecast := DailyForecast(days, today, metric, lib),
         detailedForecast :=
           if detailed then Some(DetailedRecords(data.info, data.samples, metric, lib))
           else p.attributes.detailedForecast))
  }

  // ---- persistence ----

  /** A successful push persists exactly the pushed document, which the next restore returns. */
  lemma SaveRestoreRoundTrip(stored: Option<Doc>, pushed: Doc, status: int)
    requires IsSuccess(status)
    ensures Restored(Persist(stored, pushed, status)) == pushed
  {
  }

  /**
   * A failed push persists nothing: the next transition starts from the same
   * document as the failed one did, so the failed changes are dropped.
   */
  lemma FailedPushIsForgotten(stored: Option<Doc>, pushed: Doc, status: int)
    requires !IsSuccess(status)
    ensures Persist(stored, pushed, status) == stored
    ensures Restored(Persist(stored, pushed, status)) == Restored(stored)
  {
  }

  // ---- set_sensor_base_data ----

  /**
   * What `set_sensor_base_data` changes: an empty `current` is seeded with
   * the 'unknown' sentinel and nothing else changes; otherwise `current` is
   * kept, and the document moves to Initializing with the new run in
   * `loading` exactly when `current` names both a date and a pass and they
   * differ from the new run. In every other case the document is pushed as
   * restored.
   */
  lemma BaseDataEffect(d: Doc, date: int, pass: int)
    ensures var r := WithBaseData(d, date, pass);
      && r.name == d.name
      && r.attributes.forecast == d.attributes.forecast
      && r.attributes.units == d.attributes.units
      && r.attributes.detailedForecast == d.attributes.detailedForecast
      && (d.attributes.current.IsEmpty() ==>
            r == d.(attributes := d.attributes.(current := UnknownRun)))
      && (!d.attributes.current.IsEmpty() ==> r.attributes.current == d.attributes.current)
      && (!d.attributes.current.IsEmpty() ==>
            r == d.(state := r.state, attributes := d.attributes.(loading := r.attributes.loading)))
      && (r != d && !d.attributes.current.IsEmpty() <==>
            && d.attributes.current.date.Some? && d.attributes.current.pass.Some?
            && (d.attributes.current.date.value != Known(date) || d.attributes.current.pass.value != Known(pass))
            && (d.state != Initializing || d.attributes.loading != Started(date, pass)))
      && (r.state == Initializing && r.attributes.loading == Started(date, pass) <==>
            || (d.state == Initializing && d.attributes.loading == Started(date, pass))
            || (&& d.attributes.current.date.Some? && d.attributes.current.pass.Some?
                && (d.attributes.current.date.value != Known(date) || d.attributes.current.pass.value != Known(pass))))
  {
  }

  /** Once `current` is non-empty, announcing the same run again changes nothing. */
  lemma BaseDataIdempotent(d: Doc, date: int, pass: int)
    requires !d.attributes.current.IsEmpty()
    ensures WithBaseData(WithBaseData(d, date, pass), date, pass) == WithBaseData(d, date, pass)
  {
  }

  /** From any document, a third announcement of the same run changes nothing. */
  lemma BaseDataSettles(d: Doc, date: int, pass: int)
    ensures var once := WithBaseData(d, date, pass);
      WithBaseData(WithBaseData(once, date, pass), date, pass) == WithBaseData(once, date, pass)
  {
    var once := WithBaseData(d, date, pass);
    assert !once.attributes.current.IsEmpty();
    BaseDataIdempotent(once, date, pass);
  }

  /**
   * On a fresh install the first announcement only seeds the sentinel and
   * leaves the state "", and only the second one reaches Initializing.
   */
  lemma FreshInstallNeedsSecondAnnouncement(date: int, pass: int)
    ensures WithBaseData(Restored(None), date, pass).state == Blank
    ensures WithBaseData(Restored(None), date, pass).attributes.current == UnknownRun
    ensures WithBaseData(WithBaseData(Restored(None), date, pass), date, pass).state == Initializing
    ensures WithBaseData(WithBaseData(Restored(None), date, pass), date, pass).attributes.loading == Started(date, pass)
  {
  }

  /**
   * The comparison is with `current`, not with `loading`: while the next run
   * is loading, announcing that same run again sends the document back to
   * Initializing and drops the recorded offset.
   */
  lemma MidRunReannounce(d: Doc, date: int, pass: int, offset: int)
    requires d.state == Loading && d.attributes.loading == AtOffset(date, pass, offset)
    requires d.attributes.current.date.Some? && d.attributes.current.pass.Some?
    requires d.attributes.current.date.value != Known(date) || d.attributes.current.pass.value != Known(pass)
    ensures WithBaseData(d, date, pass).state == Initializing
    ensures WithBaseData(d, date, pass).attributes.loading == Started(date, pass)
  {
  }

  // ---- update_sensor_during_loading ----

  /**
   * `update_sensor_during_loading` records the progress whatever `current`
   * holds and leaves `current`, `forecast` and the other attributes alone.
   */
  lemma LoadingEffect(d: Doc, date: int, pass: int, offset: int)
    ensures var r := WithLoading(d, date, pass, offset);
      && r.state == Loading
      && r.attributes.loading == AtOffset(date, pass, offset)
      && r.attributes.current == d.attributes.current
      && r.attributes.forecast == d.attributes.forecast
      && r.attributes.detailedForecast == d.attributes.detailedForecast
      && r == d.(state := r.state, attributes := d.attributes.(loading := r.attributes.loading))
  {
  }

  // ---- update_sensor_with_full_data ----

  /**
   * `update_sensor_with_full_data` finishes the run: `current` names the run
   * and its coordinates, `loading` is cleared, the unit labels follow the
   * unit system, `forecast` holds one record per future day in input order,
   * and `detailed_forecast` is rebuilt with one record per offset when
   * detailed output is asked for and kept as restored otherwise.
   */
  lemma FullDataEffect(d: Doc, data: GfsData, days: seq<DayEntry>, detailed: bool,
                       metric: bool, lib: Library, today: int, now: int)
    ensures var r := WithFullData(d, data, days, detailed, metric, lib, today, now);
      && r.state == Finished
      && r.attributes.loading == Idle
      && r.attributes.current.date == Some(Known(data.info.date))
      && r.attributes.current.pass == Some(Known(data.info.pass))
      && r.attributes.current.usedLatitude == Some(data.info.usedLatitude)
      && r.attributes.current.usedLongitude == Some(data.info.usedLongitude)
      && r.attributes.units == Some(UnitsFor(metric))
      && r.attributes.lastUpdated == Some(now)
      && r.attributes.forecast == RecordsOf(FutureDays(days, today), metric, lib)
      && (forall k :: 0 <= k < |r.attributes.forecast| ==> r.attributes.forecast[k].date > today)
      && (detailed ==> r.attributes.detailedForecast.Some?
                       && |r.attributes.detailedForecast.value| == |data.samples|
                       && forall k :: 0 <= k < |data.samples| ==>
                            r.attributes.detailedForecast.value[k].offset == data.samples[k].offset
                            && (r.attributes.detailedForecast.value[k].windspeedBft.Some? <==> metric))
      && (!detailed ==> r.attributes.detailedForecast == d.attributes.detailedForecast)
      && r.name == d.name
      && r.attributes.icon == d.attributes.icon
      && r.attributes.friendlyName == d.attributes.friendlyName
  {
    ForecastsAreFutureDays(days, today, metric, lib);
    DetailedRecordsShape(data.info, data.samples, metric, lib);
  }

  // ---- the state/loading invariant ----

  /** Every document the sensor can push or persist keeps `state` and `loading` in step. */
  lemma TransitionsKeepCoherent(d: Doc, date: int, pass: int, offset: int, data: GfsData,
                                days: seq<DayEntry>, detailed: bool, metric: bool, lib: Library,
                                today: int, now: int)
    requires Coherent(d)
    ensures Coherent(DefaultDoc())
    ensures Coherent(WithBaseData(d, date, pass))
    ensures Coherent(WithLoading(d, date, pass, offset))
    ensures Coherent(Prefilled(d, data.info, detailed, metric, now))
    ensures Coherent(WithFullData(d, data, days, detailed, metric, lib, today, now))
  {
  }
}
