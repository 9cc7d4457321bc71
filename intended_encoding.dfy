/**
 * The record the handlers evidently meant to build. PlatformLib.swift declares an `EventType`
 * enumeration (keyPress = 0, mouseMove = 1, mouseClick = 2) and passes each handler the
 * pressed state, yet every handler writes type 1 and pressed 1. This module shows what that
 * loses and gives the tagged record with a decoder that recovers the handler call from it.
 */
module IntendedEncoding {
  import opened Wrappers
  import opened InteropStructs
  import opened PlatformLib

  /** The raw values of `EventType`. */
  const KeyPressType: int32 := 0
  const MouseMoveType: int32 := 1
  const MouseClickType: int32 := 2

  function Flag(b: bool): int32
  {
    if b then 1 else 0
  }

  /** The record tagged with its handler's own event type and carrying the pressed state. */
  function IntendedRecord(call: HandlerCall): Event
  {
    match call
    case KeyPress(k, pressed) => Event(KeyPressType, k, 0, 0, 0, Flag(pressed))
    case MouseMove(x, y) => Event(MouseMoveType, 0, x, y, 0, 0)
    case MouseClick(x, y, button, pressed) => Event(MouseClickType, 0, x, y, button, Flag(pressed))
  }

  /**
   * The field values of the tagged record: the type is the handler's own `EventType` value,
   * the pressed flag is 1 or 0 from the pressed argument (0 for a move), and the other fields
   * are those the as-written record has.
   */
  lemma IntendedRecordFields(call: HandlerCall)
    ensures call.KeyPress? ==> IntendedRecord(call) == Event(0, call.keyCode, 0, 0, 0, if call.isPressed then 1 else 0)
    ensures call.MouseMove? ==> IntendedRecord(call) == Event(1, 0, call.mouseX, call.mouseY, 0, 0)
    ensures call.MouseClick? ==>
              IntendedRecord(call) ==
              Event(2, 0, call.mouseX, call.mouseY, call.mouseButton, if call.isPressed then 1 else 0)
    ensures IntendedRecord(call).eventType == Record(call).eventType <==> call.MouseMove?
  {
  }

  /** How a host reads a record: by its type, taking the fields that type gives meaning to. */
  function DecodeRecord(e: Event): (call: Option<HandlerCall>)
    ensures call.Some? <==> 0 <= e.eventType <= 2
  {
    if e.eventType == KeyPressType then Some(KeyPress(e.keyCode, e.isPressed != 0))
    else if e.eventType == MouseMoveType then Some(MouseMove(e.mouseX, e.mouseY))
    else if e.eventType == MouseClickType then
      Some(MouseClick(e.mouseX, e.mouseY, e.mouseButton, e.isPressed != 0))
    else None
  }

  /**
   * As written, records collide: key down and key up of a key give one record, a key press
   * of code 0, a move to the origin and a left release at the origin give one record, and a
   * host reading the type field takes any key press for a move to the origin.
   */
  lemma AsWrittenRecordsCollide(k: int32)
    ensures Record(KeyPress(k, true)) == Record(KeyPress(k, false))
    ensures Record(KeyPress(0, true)) == Record(MouseMove(0, 0))
    ensures Record(MouseMove(0, 0)) == Record(MouseClick(0, 0, 0, false))
    ensures DecodeRecord(Record(KeyPress(k, true))) == Some(MouseMove(0, 0))
  {
  }

  /** The intended record gives back the handler call it was built from. */
  lemma IntendedRecordRoundTrip(call: HandlerCall)
    ensures DecodeRecord(IntendedRecord(call)) == Some(call)
  {
  }

  /** So distinct handler calls give distinct intended records. */
  lemma IntendedRecordInjective(a: HandlerCall, b: HandlerCall)
    ensures IntendedRecord(a) == IntendedRecord(b) <==> a == b
  {
  }

  /**
   * With the tagged record, a release no longer records what the press records, for keys and
   * for every mouse button.
   */
  lemma IntendedSeparatesPressRelease(k: uint16, side: Side, x: int32, y: int32)
    ensures IntendedRecord(Route(KeyUp(k)).value) != IntendedRecord(Route(KeyDown(k)).value)
    ensures IntendedRecord(Route(MouseUp(side, x, y)).value)
              != IntendedRecord(Route(MouseDown(side, x, y)).value)
  {
  }
}
