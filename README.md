# Input event queue of the native window bridge

The library opens a Cocoa window for a host program and passes the window's key and mouse input
to the host through a queue. This project models that queue, as PlatformLib.swift implements it:

- the process-wide array `eventQeueue`;
- the `CustomView` input overrides (`keyDown` … `otherMouseDragged`, `scrollWheel`), which call
  one of three handlers;
- the handlers `handleKeyPress`, `handleMouseMove` and `handleMouseClick`, which each build one
  flat `Event` record and append it;
- `pollEvents`, which removes and returns the head of the queue, or nothing when it is empty.

Files:

- `interop_structs.dfy` (module `InteropStructs`): the six-field `Event` record of
  InteropStructs.h, with fixed-width `int32` fields. The C field `type` is named `eventType`,
  because `type` is a Dafny keyword.
- `wrappers.dfy` (module `Wrappers`): `Option`, which stands for the nullable pointer
  `pollEvents` returns.
- `platform_lib.dfy` (module `PlatformLib`): the pure model and the queue itself.
  - The pure model: `InputKind` is one override call. `Route` gives the handler call that
    override makes. `Record` gives the record that handler builds. `Enqueued` gives the
    records a run of callbacks appends. `Poll` and `Polls` give what polling returns.
  - The class `EventQueue` is the global queue. Its handler methods and `PollEvents` change
    the `events` field in place, and each is proved against those functions. Ghost fields keep
    the history of appended and delivered events. Its invariant says the delivered events
    followed by the queued ones are exactly the appended ones.
- `intended_encoding.dfy` (module `IntendedEncoding`): the record tagged with its `EventType`,
  as the code evidently intended. It comes with a decoder and the finding below.

The code carries the evident intent that each record be tagged with its kind and carry its
pressed state. It declares an `EventType` enumeration, with keyPress 0, mouseMove 1 and
mouseClick 2 (PlatformLib.swift:4-8). Its commented-out `Event` struct has a `type: EventType`
field and an `isPressed: Bool` field (PlatformLib.swift:10-17). `handleKeyPress` and
`handleMouseClick` take an `isPressed` parameter (PlatformLib.swift:130, 140). The host script
reads type 0 as a key event and type 1 as a mouse event (main.py:88-90). Yet all three handlers
hard-code `type: 1` and `isPressed: 1` and ignore the pressed argument (PlatformLib.swift:131,
136, 141). The queue model appends exactly the records the code builds; the finding below
states the discrepancy.

## Model

| member | source | states |
|---|---|---|
| `PlatformLib.ButtonNumber` | PlatformLib.swift:85-114 | a click override passes a button number between 0 and 2 |
| `PlatformLib.ButtonNumberInjective` | PlatformLib.swift:85-114 | left, right and other buttons are reported as distinct numbers |
| `PlatformLib.Route` | PlatformLib.swift:77-127 | every override calls a handler except `scrollWheel`, which calls none |
| `PlatformLib.Recorded` | PlatformLib.swift:130-143 | one callback appends at most one record |
| `PlatformLib.Enqueued` | PlatformLib.swift:130-143 | a run of callbacks never appends more records than there were callbacks |
| `PlatformLib.Handled` | PlatformLib.swift:117-119 | the callbacks that reach a handler are non-scroll callbacks of the run, and there are no more of them than callbacks |
| `PlatformLib.HandledComplete` | PlatformLib.swift:77-127 | every occurrence of a non-scroll callback in the run reaches a handler, each exactly as often as it occurs, and no scroll callback does |
| `PlatformLib.RecordFields` | PlatformLib.swift:130-143 | the record `Record` gives for each handler. Key press: the key code, zero coordinates and button. Move: key code 0, the coordinates, button 0. Click: key code 0, the coordinates, the given button. Always type 1 and pressed 1, whatever the pressed argument |
| `PlatformLib.RecordedFields` | PlatformLib.swift:77-143 | the field values per callback. Key down/up: the key code, zero coordinates and button. Move/drag: key code 0, the coordinates, button 0. Click: key code 0, the coordinates, the button number. Always type 1 and pressed 1. Scroll: no record |
| `PlatformLib.PressedStateIgnored` | PlatformLib.swift:77-143 | a key up records the same as a key down, a button release the same as the press, and a drag with any button the same as a plain move |
| `PlatformLib.EnqueuedAllTypeOnePressed` | PlatformLib.swift:130-143 | every record any run of callbacks appends has type 1 and pressed flag 1 |
| `PlatformLib.EnqueuedAppend` | PlatformLib.swift:130-143 | appending is compositional: a run split in two appends the two parts' records one after the other |
| `PlatformLib.EnqueuedIsHandledRecords` | PlatformLib.swift:77-143 | one record per handled callback, in callback order, each built from that callback's handler call: nothing dropped, merged or reordered |
| `PlatformLib.Poll` | PlatformLib.swift:182-191 | a poll returns nothing exactly when the queue is empty and then leaves it unchanged; otherwise the event returned followed by the queue left equals the old queue |
| `PlatformLib.Polls` | PlatformLib.swift:182-191 | n polls give n results |
| `PlatformLib.PollsDeliverInOrder` | PlatformLib.swift:187-190 | polling as often as there are queued events returns them in queue order, whatever was appended behind them |
| `PlatformLib.PollsOnEmpty` | PlatformLib.swift:183-185 | every poll of an empty queue returns nothing |
| `PlatformLib.PollsDrain` | PlatformLib.swift:183-190 | N queued events and N + 1 polls: the events in order, then nothing |
| `PlatformLib.PollsReplayHandled` | PlatformLib.swift:77-191 | after a run of callbacks on an empty queue, polling once more than there were handled callbacks returns their records in order, then nothing |
| `PlatformLib.EventQueue.constructor` | PlatformLib.swift:20 | the queue starts empty, with no history |
| `PlatformLib.EventQueue.HandleKeyPress` | PlatformLib.swift:130-133 | appends exactly the key record at the end and leaves the earlier events unchanged; keeps the FIFO invariant |
| `PlatformLib.EventQueue.HandleMouseMove` | PlatformLib.swift:135-138 | appends exactly the move record at the end and leaves the earlier events unchanged; keeps the FIFO invariant |
| `PlatformLib.EventQueue.HandleMouseClick` | PlatformLib.swift:140-143 | appends exactly the click record at the end and leaves the earlier events unchanged; keeps the FIFO invariant |
| `PlatformLib.EventQueue.Dispatch` | PlatformLib.swift:77-127 | an override appends the records `Recorded` gives for it: one for each callback except scroll, which leaves the queue unchanged |
| `PlatformLib.EventQueue.PollEvents` | PlatformLib.swift:182-191 | returns and removes what `Poll` gives for the old queue. The returned event is the oldest appended one not yet delivered, it is added to the delivered history, and the FIFO invariant holds |
| `PlatformLib.NextIsOldestUndelivered` | PlatformLib.swift:187 | under the FIFO invariant, the head of a non-empty queue is the oldest appended event not yet handed to the host |
| `PlatformLib.HostSession` | PlatformLib.swift:77-191 | key down, key up, scroll, right press, then four polls. Both key polls return the same record, the click carries button 1, and the fourth poll returns nothing |
| `IntendedEncoding.DecodeRecord` | PlatformLib.swift:4-8 | a record decodes exactly when its type is one of the three `EventType` values |
| `IntendedEncoding.AsWrittenRecordsCollide` | PlatformLib.swift:130-143 | as written, key down and key up give one record. A code-0 key, a move to the origin and a left release there all give one record. A type-reading host decodes any key record as a move to the origin |
| `IntendedEncoding.IntendedRecordFields` | PlatformLib.swift:4-17 | the tagged record: type is the handler's `EventType` raw value (key press 0, move 1, click 2); pressed is 1 or 0 from the pressed argument, and 0 for a move; the other fields are as written. Only the move record keeps the as-written type 1 |
| `IntendedEncoding.IntendedSeparatesPressRelease` | PlatformLib.swift:77-114 | with the tagged record, key up and key down of a key, and release and press of any mouse button, give different records |
| `IntendedEncoding.IntendedRecordRoundTrip` | PlatformLib.swift:4-8 | the tagged record decodes back to the handler call it was built from |
| `IntendedEncoding.IntendedRecordInjective` | PlatformLib.swift:4-8 | distinct handler calls give distinct tagged records |

## Left out

- Window creation, the application delegate and the run loop (`PlatformLayer.init`, `setupWindow`, `initializePlatformLayer`): toolkit calls with nothing to state.
- `resizeWindow` and `setWindowTitle`: asynchronous UI-thread dispatch with no observable result for the caller.
- `CustomView.draw`: CoreGraphics calls drawing a fixed rectangle.
- `playSound`: bundle lookup and audio playback, that is file I/O.
- The drawing primitives and `processEvents` the host calls: their implementation is not part of this model.
- The heap allocation in `pollEvents` and the ownership handoff to the caller: the result is modelled as an `Option<Event>` value.
- The conversion of `locationInWindow` coordinates to `Float` and then to `Int32` (truncation, and a trap when out of range): floating point. Callbacks carry integer coordinates that are already converted.
- The unsynchronised access to `eventQeueue` from the UI thread and the polling thread: the queue is modelled sequentially.
- The global variable itself: the queue is one `EventQueue` object that every handler and the poller use.
- The commented-out Swift `Event` struct and the host script's own `Event` layout (`c_float` coordinates, `c_bool` flag): the record follows InteropStructs.h.

## Findings

| source | as written | input that shows it | evidently intended | confidence | as-written member | corrected member |
|---|---|---|---|---|---|---|
| PlatformLib.swift:130-143 | each handler builds its record with `type: 1` and `isPressed: 1`, ignoring its own event kind and its pressed argument | key up of key 5 gives `{1, 5, 0, 0, 0, 1}`, the same record as key down of key 5. Key down of key 0 gives `{1, 0, 0, 0, 0, 1}`, the same record as a move to (0, 0) | type is the handler's `EventType` raw value (keyPress 0, mouseMove 1, mouseClick 2) and `isPressed` is the pressed argument, so the record determines the handler call (a drag still records as a move, since `handleMouseMove` takes no button) | high, not executed | `IntendedEncoding.AsWrittenRecordsCollide` | `IntendedEncoding.IntendedRecordRoundTrip` |

The queue in `PlatformLib` keeps the as-written records, because those are what the host receives.
The tagged record and its decoder are proved beside them.
