/**
 * The unit and derived-value helpers the sensor calls (`utils.get_wind_info`,
 * `utils.convert_ms_to_bft`, `utils.get_wind_rose`, `utils.ms_to_kmh`,
 * `utils.get_condition`). Their module is not part of this model, so they are
 * treated as uninterpreted: a `Library` value carries one total function per
 * helper, and every property proved about the sensor holds for all of them.
 */
module Utils {

  datatype Library = Library(
    /** get_wind_info(vwind, uwind, metric) -> (speed, angle in degrees) */
    windInfo: (real, real, bool) -> (real, real),
    /** convert_ms_to_bft(speed) -> Beaufort force */
    msToBft: real -> int,
    /** get_wind_rose(angle) -> compass-rose label */
    windRose: real -> string,
    /** ms_to_kmh(speed) -> speed in km/h */
    msToKmh: real -> real,
    /** get_condition(chance_of_sun, rain, min_temperature_daytime) -> condition label */
    condition: (real, real, real) -> string
  )
}
