/** Shared value types: optional values, results, and the calendar's notion of time. */
module Common {

  datatype Option<+T> = None | Some(value: T)

  datatype Result<+T, +E> = Success(value: T) | Failure(error: E)

  /** A point in time as the feed writes it out. `DateOnly` is what a
      calendar date prints as (no time part); `DateTime` is a date at a
      time of day, in whole seconds after midnight. */
  datatype Stamp = DateOnly(day: int) | DateTime(day: int, second: Second)

  /** Seconds after midnight: 00:00:00 is 0 and 23:59:59 is 86399. */
  type Second = s: int | 0 <= s <= DayEnd

  /** 23:59:59, the last second of a day. */
  const DayEnd: int := 86399

  /** The value of an `updated_at` column, compared as the feed compares it. */
  type Timestamp = int

  /** An identifier as it travels through the request and the file name: a string. */
  type UserId = string
}
