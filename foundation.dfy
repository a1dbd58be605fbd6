/** The few Foundation behaviours the NOAAKit core relies on and that are small
    enough to state exactly. Everything else Foundation does for the core (date
    formatters, `URL(string:)`, rendering a `Double` as text, `Float(String)`)
    is passed to the model as a function parameter. */
module Foundation {
  import Wrappers

  /** A point in time, as seconds since the reference date. */
  type Date = int

  /** A Foundation date formatter: the date it reads from a string, if any. */
  type DateParser = string -> Wrappers.Option<Date>

  /** `Measurement(value: c, unit: .celsius).converted(to: .fahrenheit).value`,
      in exact arithmetic. The conversion loses nothing: the Celsius reading
      can be recovered from the result. */
  function Fahrenheit(celsius: real): (r: real)
    ensures (r - 32.0) * 5.0 / 9.0 == celsius
  {
    celsius * 9.0 / 5.0 + 32.0
  }

  /** Swift's `Int(_: Double)`: the integer part, rounding toward zero. */
  function TruncateToInt(x: real): (r: int)
    ensures 0.0 <= x ==> r as real <= x < r as real + 1.0
    ensures x < 0.0 ==> r as real - 1.0 < x <= r as real
  {
    if 0.0 <= x then x.Floor else -((-x).Floor)
  }
}
