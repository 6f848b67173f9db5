/**
 * The per-day and per-offset records the sensor builds from raw model output,
 * and Python's built-in `round`, which they use.
 */
module Records {
  import opened Wrappers
  import opened Utils
  import opened Document

  /** The aggregates of one forecast day (a value of `day_forecast`). */
  datatype DayAggregate = DayAggregate(
    chanceOfSun: real,
    rain: real,
    minTemperatureDaytime: real,
    temperatureMax: real,
    temperatureMin: real,
    windspeed: real,
    windangle: real,
    chanceOfRain: real)

  /** The identity of a run and the coordinates it was computed for (`gfs_data['info']`). */
  datatype Info = Info(date: int, pass: int, usedLatitude: real, usedLongitude: real)

  /** The raw values at one offset of a run (a non-'info' value of `gfs_data`). */
  datatype Sample = Sample(
    vwind: real, uwind: real, gust: real, tmp: real, rain: real, pres: real,
    vis: real, cldhigh: real, cldmid: real, cldlow: real, cldtotal: real,
    tmp500hpa: real, cape: real, liftedindex: real)

  /** Temperatures at or beyond these sentinels mean "no data". */
  const NoMaxTemperature: real := -999.0
  const NoMinTemperature: real := 999.0

  /**
   * Python's `round(x)`: the nearest integer, ties going to the even one.
   * The two ensures clauses determine the result.
   */
  function Round(x: real): (r: int)
    ensures x - 0.5 <= r as real <= x + 0.5
    ensures (r as real == x - 0.5 || r as real == x + 0.5) ==> r % 2 == 0
  {
    var f := x.Floor;
    var frac := x - f as real;
    if frac < 0.5 then f
    else if frac > 0.5 then f + 1
    else if f % 2 == 0 then f
    else f + 1
  }

  /** Python's `round(x, 1)`: the nearest tenth, ties going to an even tenth. */
  function RoundTenth(x: real): (r: real)
    ensures (r * 10.0).Floor as real == r * 10.0
    ensures x - 0.05 <= r <= x + 0.05
    ensures (r == x - 0.05 || r == x + 0.05) ==> (r * 10.0).Floor % 2 == 0
  {
    Round(x * 10.0) as real / 10.0
  }

  /** `__get_sensor_forecast`: the public record of one day. */
  function ForecastRecordOf(day: DayAggregate, date: int, metric: bool, lib: Library): (r: ForecastRecord)
    ensures r.date == date
    ensures r.temperature.Some? <==> day.temperatureMax > NoMaxTemperature
    ensures r.templow.Some? <==> day.temperatureMin < NoMinTemperature
    ensures r.temperature.Some? ==> r.temperature.value == Round(day.temperatureMax)
    ensures r.templow.Some? ==> r.templow.value == Round(day.temperatureMin)
    ensures r.windSpeedBft.Some? <==> metric
    ensures r.windSpeed == day.windspeed
  {
    ForecastRecord(
      date := date,
      condition := lib.condition(day.chanceOfSun, day.rain, day.minTemperatureDaytime),
      temperature := if day.temperatureMax > NoMaxTemperature then Some(Round(day.temperatureMax)) else None,
      templow := if day.temperatureMin < NoMinTemperature then Some(Round(day.temperatureMin)) else None,
      precipitation := Round(day.rain),
      windSpeed := day.windspeed,
      windSpeedBft := if metric then Some(lib.msToBft(day.windspeed)) else None,
      windRose := lib.windRose(day.windangle),
      windBearing := Round(day.windangle),
      chanceOfSun := Round(day.chanceOfSun),
      chanceOfRain := Round(day.chanceOfRain))
  }

  /**
   * The body of the `detailed_forecast` loop for one offset: the record of the
   * sample taken `offset` hours after the run's base time (its date at hour
   * `pass`). Pressure goes from Pa to hPa.
   */
  function DetailedRecordOf(info: Info, offset: int, s: Sample, metric: bool, lib: Library): (r: DetailedRecord)
    ensures r.offset == offset
    ensures r.hour == 24 * info.date + info.pass + offset
    ensures r.windspeedBft.Some? <==> metric
    ensures s.pres / 100.0 - 0.05 <= r.pressure <= s.pres / 100.0 + 0.05
  {
    var wind := lib.windInfo(s.vwind, s.uwind, metric);
    DetailedRecord(
      hour := 24 * info.date + info.pass + offset,
      windspeed := wind.0,
      windspeedBft := if metric then Some(lib.msToBft(wind.0)) else None,
      windangle := wind.1,
      windrose := lib.windRose(wind.1),
      gust := lib.msToKmh(s.gust),
      temperature := s.tmp,
      rain := s.rain,
      pressure := RoundTenth(s.pres / 100.0),
      visibility := Round(s.vis),
      cldhigh := Round(s.cldhigh),
      cldmid := Round(s.cldmid),
      cldlow := Round(s.cldlow),
      cldtotal := Round(s.cldtotal),
      tmp500hpa := s.tmp500hpa,
      cape := Round(s.cape),
      liftedindex := Round(s.liftedindex),
      offset := offset)
  }
}
