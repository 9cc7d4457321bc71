/**
 * The flat record that crosses the library boundary (InteropStructs.h:1-7), and the
 * fixed-width integers it is made of.
 */
module InteropStructs {

  /** A C `int` / Swift `Int32`. */
  newtype int32 = x: int | -0x8000_0000 <= x < 0x8000_0000

  /** The key code an `NSEvent` carries (a Swift `UInt16`). */
  newtype uint16 = x: int | 0 <= x < 0x1_0000

  /**
   * One input event, all six fields always present. The C field `type` is a keyword
   * in Dafny, so it is called `eventType` here.
   */
  datatype Event = Event(
    eventType: int32,
    keyCode: int32,
    mouseX: int32,
    mouseY: int32,
    mouseButton: int32,
    isPressed: int32)
}
