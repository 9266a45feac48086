// The enumerations the API takes and returns (LedNumber.java, LedColor.java,
// LedPower.java, TextAlignment.java, BrightnessLevel.java, DrawingStyle.java,
// LcdButton.java), and the coordinate pair of Point.java. Every Java enum with a
// NULL constant keeps it, because the API's switches treat it as "no match".
module Types {

  datatype Option<T> = None | Some(value: T)

  /** Which LED a call addresses; All fans out to One, Two, Three in that order. */
  datatype LedNumber = Null | One | Two | Three | All

  datatype LedColor = Null | Red | Green | Yellow

  datatype LedPower = Null | On | Off

  datatype TextAlignment = Null | Left | Center | Right

  datatype BrightnessLevel = Off | Low | Medium | High

  datatype DrawingStyle = Solid | Dashed | DashedLong | Dotted

  datatype LcdButton = Null | Up | Down | Left | Right | Center | TopLeft | BottomLeft

  /** The API only distinguishes WHITE from every other drawing colour, so two
      values stand for the whole enumeration. */
  datatype DrawingColor = White | Black

  /** A pixel coordinate pair; it is not bounds-checked until it is drawn. */
  datatype Point = Point(x: int, y: int)
}
