/**
 * The records that flow through the bot: one forecast entry as the weather
 * provider delivers it (typed, with the optional precipitation blocks made
 * explicit) and the normalised snapshot the recommendation engine reads.
 */
module Weather {
  import opened Wrappers

  /** A calendar day; the entry's local date is given, not derived from a timestamp. */
  datatype Date = Date(year: int, month: int, day: int)

  /** An hour of the day on the local clock. */
  type Hour = h: int | 0 <= h < 24

  /** A `rain` or `snow` block of a forecast entry; its `3h` volume may be missing. */
  datatype Precipitation = Precipitation(threeHour: Option<real>)

  /**
   * One 3-hour forecast entry: the fields the bot reads from `main`,
   * `weather[0]`, `wind`, and the optional `rain` and `snow` blocks.
   */
  datatype ForecastEntry = ForecastEntry(
    date: Date,
    hour: Hour,
    temp: real,
    feelsLike: real,
    description: string,
    windSpeed: real,
    humidity: int,
    rain: Option<Precipitation>,
    snow: Option<Precipitation>)

  /** The dictionary `get_weather_forecast` returns. */
  datatype Snapshot = Snapshot(
    date: Date,
    temp: real,
    feelsLike: real,
    description: string,
    wind: real,
    humidity: int,
    rain: bool,
    snow: bool)
}
