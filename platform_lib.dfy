/**
 * The input event queue of PlatformLib.swift: the process-wide queue `eventQeueue`, the
 * `CustomView` input overrides that feed it through three handlers, and the poller the host
 * drains it with.
 *
 * The pure part (which handler an input reaches, which record a handler builds, what a run of
 * polls returns) is stated as functions; the queue itself is the class `EventQueue`, whose
 * methods append to and remove from its `events` field in place, as the Swift code does with
 * its global array.
 */
module PlatformLib {
  import opened Wrappers
  import opened InteropStructs

  // ---------------------------------------------------------------------------------------
  // Inputs and the handlers they reach
  // ---------------------------------------------------------------------------------------

  /** The mouse button an override stands for: `mouse…`, `rightMouse…` or `otherMouse…`. */
  datatype Side = Left | Right | Other

  /**
   * One native input callback of `CustomView`. The coordinates are the window location
   * already converted to integers.
   *   KeyDown / KeyUp           keyDown, keyUp
   *   MouseDown / MouseUp       mouseDown, rightMouseDown, otherMouseDown (and the …Up ones)
   *   MouseMoved                mouseMoved
   *   MouseDragged              mouseDragged, rightMouseDragged, otherMouseDragged
   *   ScrollWheel               scrollWheel
   */
  datatype InputKind =
    | KeyDown(keyCode: uint16)
    | KeyUp(keyCode: uint16)
    | MouseDown(side: Side, x: int32, y: int32)
    | MouseUp(side: Side, x: int32, y: int32)
    | MouseMoved(x: int32, y: int32)
    | MouseDragged(side: Side, x: int32, y: int32)
    | ScrollWheel

  /** A call of one of the three handlers, with the arguments the override passes. */
  datatype HandlerCall =
    | KeyPress(keyCode: int32, isPressed: bool)
    | MouseMove(mouseX: int32, mouseY: int32)
    | MouseClick(mouseX: int32, mouseY: int32, mouseButton: int32, isPressed: bool)

  /** The button number a click override passes to `handleMouseClick`. */
  function ButtonNumber(side: Side): (b: int32)
    ensures 0 <= b <= 2
  {
    match side
    case Left => 0
    case Right => 1
    case Other => 2
  }

  /** Distinct buttons are reported with distinct numbers. */
  lemma ButtonNumberInjective(a: Side, b: Side)
    ensures ButtonNumber(a) == ButtonNumber(b) <==> a == b
  {
  }

  /** The handler call an override makes, or None for the scroll wheel, which does nothing. */
  function Route(input: InputKind): (call: Option<HandlerCall>)
    ensures call.None? <==> input.ScrollWheel?
  {
    match input
    case KeyDown(k) => Some(KeyPress(k as int32, true))
    case KeyUp(k) => Some(KeyPress(k as int32, false))
    case MouseDown(side, x, y) => Some(MouseClick(x, y, ButtonNumber(side), true))
    case MouseUp(side, x, y) => Some(MouseClick(x, y, ButtonNumber(side), false))
    case MouseMoved(x, y) => Some(MouseMove(x, y))
    case MouseDragged(_, x, y) => Some(MouseMove(x, y))
    case ScrollWheel => None
  }

  /**
   * The record a handler builds, as the code writes it: the type is always 1 and the pressed
   * flag always 1, whatever pressed state the handler was given.
   */
  function Record(call: HandlerCall): Event
  {
    match call
    case KeyPress(k, _) => Event(1, k, 0, 0, 0, 1)
    case MouseMove(x, y) => Event(1, 0, x, y, 0, 1)
    case MouseClick(x, y, button, _) => Event(1, 0, x, y, button, 1)
  }

  /** The records one input callback appends to the queue: none or one. */
  function Recorded(input: InputKind): (r: seq<Event>)
    ensures |r| <= 1
  {
    match Route(input)
    case None => []
    case Some(call) => [Record(call)]
  }

  /** The records a run of input callbacks appends, in callback order. */
  function Enqueued(inputs: seq<InputKind>): (r: seq<Event>)
    ensures |r| <= |inputs|
  {
    if inputs == [] then [] else Recorded(inputs[0]) + Enqueued(inputs[1..])
  }

  /** The callbacks of a run that reach a handler: all but the scroll-wheel ones, in order. */
  function Handled(inputs: seq<InputKind>): (r: seq<InputKind>)
    ensures |r| <= |inputs|
    ensures forall i :: 0 <= i < |r| ==> !r[i].ScrollWheel? && r[i] in inputs
  {
    if inputs == [] then []
    else (if inputs[0].ScrollWheel? then [] else [inputs[0]]) + Handled(inputs[1..])
  }

  // ---------------------------------------------------------------------------------------
  // What each callback records
  // ---------------------------------------------------------------------------------------

  /**
   * The field values of the record each handler builds: the given key code or coordinates and
   * button, zero in every field its kind does not use, and always type 1 and pressed 1.
   */
  lemma RecordFields(call: HandlerCall)
    ensures Record(call).eventType == 1 && Record(call).isPressed == 1
    ensures call.KeyPress? ==> Record(call) == Event(1, call.keyCode, 0, 0, 0, 1)
    ensures call.MouseMove? ==> Record(call) == Event(1, 0, call.mouseX, call.mouseY, 0, 1)
    ensures call.MouseClick? ==>
              Record(call) == Event(1, 0, call.mouseX, call.mouseY, call.mouseButton, 1)
  {
  }

  /** The field values of the record each kind of callback appends. */
  lemma RecordedFields(input: InputKind)
    ensures input.ScrollWheel? <==> Recorded(input) == []
    ensures input.KeyDown? || input.KeyUp? ==>
              Recorded(input) == [Event(1, input.keyCode as int32, 0, 0, 0, 1)]
    ensures input.MouseMoved? || input.MouseDragged? ==>
              Recorded(input) == [Event(1, 0, input.x, input.y, 0, 1)]
    ensures input.MouseDown? || input.MouseUp? ==>
              Recorded(input) == [Event(1, 0, input.x, input.y, ButtonNumber(input.side), 1)]
  {
  }

  /**
   * The pressed state is lost: a release records exactly what the press records, and a drag
   * with any button records exactly what a plain move records.
   */
  lemma PressedStateIgnored(k: uint16, side: Side, x: int32, y: int32)
    ensures Recorded(KeyUp(k)) == Recorded(KeyDown(k))
    ensures Recorded(MouseUp(side, x, y)) == Recorded(MouseDown(side, x, y))
    ensures Recorded(MouseDragged(side, x, y)) == Recorded(MouseMoved(x, y))
  {
  }

  /** Every record any run of callbacks puts in the queue has type 1 and pressed flag 1. */
  lemma {:induction false} EnqueuedAllTypeOnePressed(inputs: seq<InputKind>)
    ensures forall e :: e in Enqueued(inputs) ==> e.eventType == 1 && e.isPressed == 1
  {
    if inputs != [] {
      EnqueuedAllTypeOnePressed(inputs[1..]);
    }
  }

  /** Dispatching a run in two parts appends what dispatching it at once appends. */
  lemma {:induction false} EnqueuedAppend(a: seq<InputKind>, b: seq<InputKind>)
    ensures Enqueued(a + b) == Enqueued(a) + Enqueued(b)
  {
    if a == [] {
      assert a + b == b;
    } else {
      assert (a + b)[1..] == a[1..] + b;
      EnqueuedAppend(a[1..], b);
    }
  }

  /**
   * The queue grows by one record per handled callback, and the i-th record appended is the
   * one the handler of the i-th handled callback builds: nothing is dropped, coalesced or
   * reordered, and only scroll-wheel callbacks are skipped.
   */
  lemma {:induction false} EnqueuedIsHandledRecords(inputs: seq<InputKind>)
    ensures |Enqueued(inputs)| == |Handled(inputs)|
    ensures forall i :: 0 <= i < |Handled(inputs)| ==>
              Enqueued(inputs)[i] == Record(Route(Handled(inputs)[i]).value)
  {
    if inputs != [] {
      EnqueuedIsHandledRecords(inputs[1..]);
      if !inputs[0].ScrollWheel? {
        var h := Handled(inputs);
        assert h == [inputs[0]] + Handled(inputs[1..]);
        forall i | 0 <= i < |h|
          ensures Enqueued(inputs)[i] == Record(Route(h[i]).value)
        {
          if i > 0 {
            assert h[i] == Handled(inputs[1..])[i - 1];
          }
        }
      }
    }
  }

  /**
   * `Handled` keeps every occurrence of every callback that reaches a handler, and no
   * occurrence of a scroll-wheel callback.
   */
  lemma {:induction false} HandledComplete(inputs: seq<InputKind>)
    ensures forall x: InputKind :: !x.ScrollWheel? ==> multiset(Handled(inputs))[x] == multiset(inputs)[x]
    ensures forall x: InputKind :: x.ScrollWheel? ==> multiset(Handled(inputs))[x] == 0
  {
    if inputs != [] {
      HandledComplete(inputs[1..]);
      assert inputs == [inputs[0]] + inputs[1..];
    }
  }

  // ---------------------------------------------------------------------------------------
  // Polling
  // ---------------------------------------------------------------------------------------

  /** What one poll returns, and the queue it leaves behind. */
  datatype Polled = Polled(event: Option<Event>, rest: seq<Event>)

  /** One poll of a queue holding `queue`: its head and its tail, or nothing on empty. */
  function Poll(queue: seq<Event>): (p: Polled)
    ensures p.event == None <==> queue == []
    ensures p.event == None ==> p.rest == queue
    ensures p.event.Some? ==> [p.event.value] + p.rest == queue
  {
    if queue == [] then Polled(None, queue) else Polled(Some(queue[0]), queue[1..])
  }

  /** The results of `n` successive polls, starting from a queue holding `queue`. */
  function Polls(queue: seq<Event>, n: nat): (r: seq<Option<Event>>)
    ensures |r| == n
  {
    if n == 0 then []
    else
      var p := Poll(queue);
      [p.event] + Polls(p.rest, n - 1)
  }

  /** Each event of a sequence, wrapped as a successful poll result. */
  function Somes(events: seq<Event>): seq<Option<Event>>
  {
    if events == [] then [] else [Some(events[0])] + Somes(events[1..])
  }

  /**
   * First in, first out: polling as many times as there are queued events returns them in
   * queue order, whatever was appended behind them.
   */
  lemma {:induction false} PollsDeliverInOrder(queue: seq<Event>, later: seq<Event>)
    ensures Polls(queue + later, |queue|) == Somes(queue)
  {
    if queue != [] {
      assert (queue + later)[0] == queue[0];
      assert (queue + later)[1..] == queue[1..] + later;
      PollsDeliverInOrder(queue[1..], later);
    }
  }

  /** Once the queue is empty, every further poll returns nothing. */
  lemma {:induction false} PollsOnEmpty(n: nat)
    ensures forall i :: 0 <= i < n ==> Polls([], n)[i] == None
  {
    if n > 0 {
      PollsOnEmpty(n - 1);
      assert Polls([], n) == [None] + Polls([], n - 1);
    }
  }

  /** N queued events and N + 1 polls: the events in order, then nothing. */
  lemma {:induction false} PollsDrain(queue: seq<Event>)
    ensures Polls(queue, |queue| + 1) == Somes(queue) + [None]
  {
    if queue != [] {
      PollsDrain(queue[1..]);
    }
  }

  /**
   * End to end: after a run of callbacks on an empty queue, polling one more time than there
   * were handled callbacks returns their records in callback order and then nothing.
   */
  lemma PollsReplayHandled(inputs: seq<InputKind>)
    ensures Polls(Enqueued(inputs), |Handled(inputs)| + 1) == Somes(Enqueued(inputs)) + [None]
  {
    EnqueuedIsHandledRecords(inputs);
    PollsDrain(Enqueued(inputs));
  }

  // ---------------------------------------------------------------------------------------
  // The queue
  // ---------------------------------------------------------------------------------------

  /**
   * The process-wide queue `eventQeueue`, with the handlers that append to it and the poller
   * that drains it. The ghost history records every event ever appended (`enqueued`) and
   * every event ever handed to the host (`delivered`); the invariant that the delivered ones
   * followed by the queued ones are exactly the appended ones is first-in, first-out across
   * any interleaving of appends and polls.
   */
  class EventQueue {
    var events: seq<Event>
    ghost var enqueued: seq<Event>
    ghost var delivered: seq<Event>

    ghost predicate Valid()
      reads this
    {
      delivered + events == enqueued
    }

    constructor ()
      ensures Valid()
      ensures events == [] && enqueued == [] && delivered == []
    {
      events := [];
      enqueued := [];
      delivered := [];
    }

    method HandleKeyPress(keyCode: int32, isPressed: bool)
      requires Valid()
      modifies this
      ensures Valid()
      ensures events == old(events) + [Record(KeyPress(keyCode, isPressed))]
      ensures enqueued == old(enqueued) + [Record(KeyPress(keyCode, isPressed))]
      ensures delivered == old(delivered)
    {
      var event := Event(1, keyCode, 0, 0, 0, 1);
      events := events + [event];
      enqueued := enqueued + [event];
    }

    method HandleMouseMove(mouseX: int32, mouseY: int32)
      requires Valid()
      modifies this
      ensures Valid()
      ensures events == old(events) + [Record(MouseMove(mouseX, mouseY))]
      ensures enqueued == old(enqueued) + [Record(MouseMove(mouseX, mouseY))]
      ensures delivered == old(delivered)
    {
      var event := Event(1, 0, mouseX, mouseY, 0, 1);
      events := events + [event];
      enqueued := enqueued + [event];
    }

    method HandleMouseClick(mouseX: int32, mouseY: int32, mouseButton: int32, isPressed: bool)
      requires Valid()
      modifies this
      ensures Valid()
      ensures events == old(events) + [Record(MouseClick(mouseX, mouseY, mouseButton, isPressed))]
      ensures enqueued == old(enqueued) + [Record(MouseClick(mouseX, mouseY, mouseButton, isPressed))]
      ensures delivered == old(delivered)
    {
      var event := Event(1, 0, mouseX, mouseY, mouseButton, 1);
      events := events + [event];
      enqueued := enqueued + [event];
    }

    /** The `CustomView` input overrides: each callback calls its handler, scroll does nothing. */
    method Dispatch(input: InputKind)
      requires Valid()
      modifies this
      ensures Valid()
      ensures events == old(events) + Recorded(input)
      ensures enqueued == old(enqueued) + Recorded(input)
      ensures delivered == old(delivered)
    {
      match input
      case KeyDown(k) => HandleKeyPress(k as int32, true);
      case KeyUp(k) => HandleKeyPress(k as int32, false);
      case MouseDown(side, x, y) => HandleMouseClick(x, y, ButtonNumber(side), true);
      case MouseUp(side, x, y) => HandleMouseClick(x, y, ButtonNumber(side), false);
      case MouseMoved(x, y) => HandleMouseMove(x, y);
      case MouseDragged(_, x, y) => HandleMouseMove(x, y);
      case ScrollWheel =>
        assert events == old(events) + [];
        assert enqueued == old(enqueued) + [];
    }

    /** `pollEvents`: removes and returns the head of the queue, or nothing when it is empty. */
    method PollEvents() returns (event: Option<Event>)
      requires Valid()
      modifies this
      ensures Valid()
      ensures event == Poll(old(events)).event && events == Poll(old(events)).rest
      ensures enqueued == old(enqueued)
      ensures delivered == old(delivered) + (if event.Some? then [event.value] else [])
      ensures event.Some? ==> event.value == old(enqueued)[|old(delivered)|]
    {
      if |events| == 0 {
        return None;
      }
      NextIsOldestUndelivered(this);
      var head := events[0];
      events := events[1..];
      delivered := delivered + [head];
      assert delivered + events == old(delivered) + old(events);
      event := Some(head);
    }
  }

  /** The head of the queue is the oldest appended event not yet handed to the host. */
  lemma NextIsOldestUndelivered(q: EventQueue)
    requires q.Valid() && q.events != []
    ensures |q.delivered| < |q.enqueued| && q.events[0] == q.enqueued[|q.delivered|]
  {
  }

  /**
   * A host session on a fresh queue: key down and key up of one key, a scroll, a right-button
   * press, then four polls. Both key callbacks come back as the same record, the scroll leaves
   * nothing, the click carries button 1, and the fourth poll finds the queue empty.
   */
  method HostSession(k: uint16, x: int32, y: int32)
    returns (first: Option<Event>, second: Option<Event>, third: Option<Event>, fourth: Option<Event>)
    ensures first == second == Some(Event(1, k as int32, 0, 0, 0, 1))
    ensures third == Some(Event(1, 0, x, y, 1, 1))
    ensures fourth == None
  {
    var queue := new EventQueue();
    queue.Dispatch(KeyDown(k));
    queue.Dispatch(KeyUp(k));
    queue.Dispatch(ScrollWheel);
    queue.Dispatch(MouseDown(Right, x, y));
    var key, click := Event(1, k as int32, 0, 0, 0, 1), Event(1, 0, x, y, 1, 1);
    assert queue.events == [key, key, click];
    first := queue.PollEvents();
    assert queue.events == [key, click];
    second := queue.PollEvents();
    assert queue.events == [click];
    third := queue.PollEvents();
    fourth := queue.PollEvents();
  }
}
