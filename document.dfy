/**
 * The status document the sensor keeps, persists and publishes: the JSON
 * object held in `Sensor._sensor_data`. JSON objects whose keys may be absent
 * are records of `Option` fields; dates are day numbers (the ISO date string a
 * `date` formats to is determined by, and determines, its day number).
 */
module Document {
  import opened Wrappers

  /** The `state` string: "" before the first run, then the three stages. */
  datatype SensorState = Blank | Initializing | Loading | Finished

  /** A run-identity value in `current`: the string 'unknown' or a real value. */
  datatype Mark = Unknown | Known(value: int)

  /** The `current` object; each field is a key that may be absent. */
  datatype Current = Current(
    date: Option<Mark>,
    pass: Option<Mark>,
    usedLatitude: Option<real>,
    usedLongitude: Option<real>)
  {
    /** `not current` holds in Python exactly for the empty object. */
    predicate IsEmpty() {
      date.None? && pass.None? && usedLatitude.None? && usedLongitude.None?
    }
  }

  /** `{}` */
  const NoCurrent := Current(None, None, None, None)

  /** `{'date': 'unknown', 'pass': 'unknown'}` */
  const UnknownRun := Current(Some(Unknown), Some(Unknown), None, None)

  /** The `loading` object: `{}`, `{date, pass}` or `{date, pass, offset}`. */
  datatype Progress =
    | Idle
    | Started(date: int, pass: int)
    | AtOffset(date: int, pass: int, offset: int)

  /** The four `*_unit` labels, always written together. */
  datatype UnitLabels = UnitLabels(
    pressure: string,
    windSpeed: string,
    precipitation: string,
    temperature: string)

  /**
   * One entry of `forecast`. `date` stands for `datetime`, midnight at the
   * start of that day in the configured time zone. `temperature`, `templow`
   * and `windSpeedBft` are keys that may be absent.
   */
  datatype ForecastRecord = ForecastRecord(
    date: int,
    condition: string,
    temperature: Option<int>,
    templow: Option<int>,
    precipitation: int,
    windSpeed: real,
    windSpeedBft: Option<int>,
    windRose: string,
    windBearing: int,
    chanceOfSun: int,
    chanceOfRain: int)

  /**
   * One entry of `detailed_forecast`. `hour` stands for `datetime`: the
   * wall-clock hour, counted from day 0 at 00:00 in the configured time zone.
   */
  datatype DetailedRecord = DetailedRecord(
    hour: int,
    windspeed: real,
    windspeedBft: Option<int>,
    windangle: real,
    windrose: string,
    gust: real,
    temperature: real,
    rain: real,
    pressure: real,
    visibility: int,
    cldhigh: int,
    cldmid: int,
    cldlow: int,
    cldtotal: int,
    tmp500hpa: real,
    cape: int,
    liftedindex: int,
    offset: int)

  /** The `attributes` object. */
  datatype Attributes = Attributes(
    icon: string,
    friendlyName: string,
    current: Current,
    forecast: seq<ForecastRecord>,
    loading: Progress,
    units: Option<UnitLabels>,
    lastUpdated: Option<int>,
    detailedForecast: Option<seq<DetailedRecord>>)

  /** The whole document: `state`, `name` and `attributes`. */
  datatype Doc = Doc(state: SensorState, name: string, attributes: Attributes)

  /** The template used when no document has been persisted yet. */
  function DefaultDoc(): (d: Doc)
    ensures d.state == Blank && d.name == "GFS forecast"
    ensures d.attributes.current.IsEmpty()
    ensures d.attributes.forecast == [] && d.attributes.loading == Idle
    ensures d.attributes.units.None? && d.attributes.lastUpdated.None?
    ensures d.attributes.detailedForecast.None?
  {
    Doc(Blank, "GFS forecast",
      Attributes("mdi:weather-partly-cloudy", "GFS forecast", NoCurrent, [], Idle, None, None, None))
  }

  /**
   * `state` and `loading` describe the same stage: no run in progress before
   * the first run and once a run has finished, the announced run while
   * initializing, and the run with its offset while loading.
   */
  predicate Coherent(d: Doc) {
    match d.state
    case Blank => d.attributes.loading == Idle
    case Initializing => d.attributes.loading.Started?
    case Loading => d.attributes.loading.AtOffset?
    case Finished => d.attributes.loading == Idle
  }
}
