/**
 * The two lists rebuilt by `update_sensor_with_full_data`: `forecast`, one
 * record per future day, and `detailed_forecast`, one record per offset.
 * Both are defined the way the source builds them, by appending at the end,
 * and related to a reference definition by lemmas.
 */
module Forecasts {
  import opened Utils
  import opened Document
  import opened Records

  /** One key/value pair of `day_forecast`, in the dictionary's order. */
  datatype DayEntry = DayEntry(date: int, aggregate: DayAggregate)

  /** One non-'info' key/value pair of `gfs_data`, the key already read as `int(key)`. */
  datatype OffsetSample = OffsetSample(offset: int, sample: Sample)

  /** `forecast` after the loop over `day_forecast` with today's day number `today`. */
  function DailyForecast(days: seq<DayEntry>, today: int, metric: bool, lib: Library): (r: seq<ForecastRecord>)
    ensures |r| <= |days|
    ensures forall k :: 0 <= k < |r| ==> r[k].date > today
    decreases |days|
  {
    if days == [] then []
    else
      var rest := DailyForecast(days[..|days| - 1], today, metric, lib);
      var last := days[|days| - 1];
      if last.date > today then rest + [ForecastRecordOf(last.aggregate, last.date, metric, lib)]
      else rest
  }

  /** Reference definition: the entries of `days` dated strictly after `today`, in order. */
  function FutureDays(days: seq<DayEntry>, today: int): seq<DayEntry>
  {
    if days == [] then []
    else (if days[0].date > today then [days[0]] else []) + FutureDays(days[1..], today)
  }

  /** The records of `entries`, one each, in order. */
  function RecordsOf(entries: seq<DayEntry>, metric: bool, lib: Library): seq<ForecastRecord> {
    seq(|entries|, k requires 0 <= k < |entries| => ForecastRecordOf(entries[k].aggregate, entries[k].date, metric, lib))
  }

  /** Filtering distributes over concatenation: it keeps the input order. */
  lemma {:induction false} FutureDaysAppend(a: seq<DayEntry>, b: seq<DayEntry>, today: int)
    ensures FutureDays(a + b, today) == FutureDays(a, today) + FutureDays(b, today)
  {
    if a == [] {
      assert a + b == b;
    } else {
      assert (a + b)[0] == a[0];
      assert (a + b)[1..] == a[1..] + b;
      FutureDaysAppend(a[1..], b, today);
    }
  }

  /** A day survives the filter exactly when it is in the input and in the future. */
  lemma {:induction false} FutureDaysMembers(days: seq<DayEntry>, today: int, e: DayEntry)
    ensures e in FutureDays(days, today) <==> e in days && e.date > today
  {
    if days != [] {
      FutureDaysMembers(days[1..], today, e);
      assert days == [days[0]] + days[1..];
    }
  }

  /**
   * `forecast` holds exactly one record per day of `day_forecast` dated
   * strictly after today, in input order.
   */
  lemma {:induction false} ForecastsAreFutureDays(days: seq<DayEntry>, today: int, metric: bool, lib: Library)
    ensures DailyForecast(days, today, metric, lib) == RecordsOf(FutureDays(days, today), metric, lib)
    decreases |days|
  {
    if days != [] {
      var init, last := days[..|days| - 1], days[|days| - 1];
      ForecastsAreFutureDays(init, today, metric, lib);
      assert days == init + [last];
      FutureDaysAppend(init, [last], today);
      assert FutureDays([last], today) == (if last.date > today then [last] else []) + FutureDays([], today);
    }
  }

  /** `detailed_forecast` after the loop over the offsets of a run. */
  function DetailedRecords(info: Info, samples: seq<OffsetSample>, metric: bool, lib: Library): (r: seq<DetailedRecord>)
    ensures |r| == |samples|
    ensures forall k :: 0 <= k < |r| ==> r[k].offset == samples[k].offset
    decreases |samples|
  {
    if samples == [] then []
    else
      var last := samples[|samples| - 1];
      DetailedRecords(info, samples[..|samples| - 1], metric, lib)
        + [DetailedRecordOf(info, last.offset, last.sample, metric, lib)]
  }

  /**
   * `detailed_forecast` has one record per offset, in order; each carries its
   * own offset, and a Beaufort force exactly when the unit system is metric.
   */
  lemma {:induction false} DetailedRecordsShape(info: Info, samples: seq<OffsetSample>, metric: bool, lib: Library)
    ensures |DetailedRecords(info, samples, metric, lib)| == |samples|
    ensures forall k :: 0 <= k < |samples| ==>
      DetailedRecords(info, samples, metric, lib)[k]
        == DetailedRecordOf(info, samples[k].offset, samples[k].sample, metric, lib)
    ensures forall k :: 0 <= k < |samples| ==>
      DetailedRecords(info, samples, metric, lib)[k].offset == samples[k].offset
      && (DetailedRecords(info, samples, metric, lib)[k].windspeedBft.Some? <==> metric)
    decreases |samples|
  {
    if samples != [] {
      DetailedRecordsShape(info, samples[..|samples| - 1], metric, lib);
    }
  }
}
