/**
 * Points in time. A `DateTimeOffset` is reduced to the UTC instant it denotes, counted in
 * ticks: comparing two `DateTimeOffset` values compares exactly these instants. Formatting a
 * date as text is done by the JSON layer and is an input of the model where it is needed.
 */
module Dates {

  type Instant = int

  /** `DateTime.MinValue`, the value of an unset `DateTime` field. */
  const MinValue: Instant := 0
}
