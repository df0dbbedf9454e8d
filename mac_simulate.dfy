/** Event injection on macOS (`src/macos/simulate.rs`): an `EventType` becomes the one
    `CGEvent` to post, or an error. The CoreGraphics calls are oracles gathered in `Native`:
    whether an event source can be created, where the pointer is, and whether CoreGraphics
    creates a requested event. */
module MacSimulate {
  import opened Ints
  import opened Wrappers
  import opened Rdev
  import MacKeycodes
  import MacCommon

  /** The `CGEvent` constructors used: a keyboard event with its 16-bit keycode, a mouse event of
      a type at a point, and a pixel scroll event with its wheel count and three wheels. */
  datatype Request =
    | KeyboardEvent(keycode: u16, key_down: bool)
    | MouseEvent(event_type: MacCommon.CGEventType, x: real, y: real)
    | ScrollEvent(wheel_count: int, wheel1: i32, wheel2: i32, wheel3: i32)

  /** The answers of CoreGraphics. `location` is `None` when the pointer position cannot be read
      (its event source or its event cannot be created). */
  datatype Native = Native(source_ok: bool, location: Option<(real, real)>, creates: Request -> bool)

  /** `get_current_mouse_location`: the pointer position, or (-1, -1) when it cannot be read. */
  function MouseLocation(native: Native): (p: (real, real))
    ensures native.location.Some? ==> p == native.location.value
    ensures native.location.None? ==> p == (-1.0, -1.0)
  {
    if native.location.Some? then native.location.value else (-1.0, -1.0)
  }

  /** The event `convert_native_with_source` asks CoreGraphics for, or `None` when it returns
      `Err` without asking (a key without a code, the middle or an unknown button). */
  function RequestOf(e: EventType, native: Native): (r: Option<Request>)
    ensures r.None? <==>
      ((e.KeyPress? || e.KeyRelease?) && MacKeycodes.CodeFromKey(e.key).None?)
      || ((e.ButtonPress? || e.ButtonRelease?) && (e.button.Middle? || e.button.Unknown?))
    ensures r.Some? && (e.KeyPress? || e.KeyRelease?) ==>
      r.value == KeyboardEvent(AsU16(MacKeycodes.CodeFromKey(e.key).value), e.KeyPress?)
    ensures r.Some? && (e.ButtonPress? || e.ButtonRelease?) ==>
      r.value.MouseEvent? && (r.value.x, r.value.y) == MouseLocation(native)
    ensures e.Wheel? ==> r == Some(ScrollEvent(2, AsI32(e.delta_y), AsI32(e.delta_x), 0))
  {
    match e
    case KeyPress(k) =>
      var code := MacKeycodes.CodeFromKey(k);
      if code.None? then None else Some(KeyboardEvent(AsU16(code.value), true))
    case KeyRelease(k) =>
      var code := MacKeycodes.CodeFromKey(k);
      if code.None? then None else Some(KeyboardEvent(AsU16(code.value), false))
    case ButtonPress(b) =>
      var p := MouseLocation(native);
      if b.Left? then Some(MouseEvent(MacCommon.LeftMouseDown, p.0, p.1))
      else if b.Right? then Some(MouseEvent(MacCommon.RightMouseDown, p.0, p.1))
      else None
    case ButtonRelease(b) =>
      var p := MouseLocation(native);
      if b.Left? then Some(MouseEvent(MacCommon.LeftMouseUp, p.0, p.1))
      else if b.Right? then Some(MouseEvent(MacCommon.RightMouseUp, p.0, p.1))
      else None
    case MouseMove(x, y) => Some(MouseEvent(MacCommon.MouseMoved, x, y))
    case Wheel(dx, dy) => Some(ScrollEvent(2, AsI32(dy), AsI32(dx), 0))
  }

  /** `convert_native`: the created event, or `Err` when the event source cannot be created, the
      event has no request, or CoreGraphics refuses to create it. */
  function ConvertNative(e: EventType, native: Native): (r: Result<Request, ()>)
    ensures r.Ok? <==> native.source_ok && RequestOf(e, native).Some? && native.creates(RequestOf(e, native).value)
    ensures r.Ok? ==> r.value == RequestOf(e, native).value
  {
    if !native.source_ok then Err(())
    else
      var req := RequestOf(e, native);
      if req.None? || !native.creates(req.value) then Err(()) else Ok(req.value)
  }

  /** `simulate`: the events posted (at most one), and the result. */
  function Simulate(e: EventType, native: Native): (r: (Result<(), SimulateError>, seq<Request>))
    ensures r.0.Ok? <==> ConvertNative(e, native).Ok?
    ensures r.0.Ok? ==> r.1 == [ConvertNative(e, native).value]
    ensures r.0.Err? ==> r.1 == []
  {
    var c := ConvertNative(e, native);
    if c.Ok? then (Ok(()), [c.value]) else (Err(SimulateError.SimulateError), [])
  }

  /** Without an event source nothing is posted, whatever the event. */
  lemma NoSourceNoEvent(e: EventType, native: Native)
    requires !native.source_ok
    ensures Simulate(e, native) == (Err(SimulateError.SimulateError), [])
  {
  }

  /** Keys: only the named keys without a code fail; every `Unknown` code is passed through. */
  lemma KeyFailsOnlyWhenUnmapped(k: Key, press: bool, native: Native)
    ensures var e := if press then KeyPress(k) else KeyRelease(k);
      RequestOf(e, native).None? <==> !k.Unknown? && MacKeycodes.Unmapped(k)
  {
    if k.Unknown? {
      MacKeycodes.UnknownCode(k.code);
    } else if MacKeycodes.Unmapped(k) {
      MacKeycodes.UnmappedHasNoCode(k);
    }
  }

  /** Buttons: Left and Right press and release become the matching mouse events at the pointer,
      while Middle and `Unknown` buttons fail. */
  lemma ButtonRequests(b: Button, press: bool, native: Native)
    ensures var e := if press then ButtonPress(b) else ButtonRelease(b);
      var p := MouseLocation(native);
      RequestOf(e, native) ==
        if b.Left? then Some(MouseEvent(if press then MacCommon.LeftMouseDown else MacCommon.LeftMouseUp, p.0, p.1))
        else if b.Right? then Some(MouseEvent(if press then MacCommon.RightMouseDown else MacCommon.RightMouseUp, p.0, p.1))
        else None
  {
  }

  /** The posted event as the decoder reads it: its type, its location, its keycode and its two
      point-delta axes (a pixel scroll's first wheel is axis 1, its second wheel axis 2). */
  function Posted(req: Request): (MacCommon.CGEventType, MacCommon.CGEvent)
  {
    match req
    case KeyboardEvent(code, down) =>
      (if down then MacCommon.KeyDown else MacCommon.KeyUp, MacCommon.CGEvent(0.0, 0.0, code as i64, 0, 0, 0))
    case MouseEvent(t, x, y) => (t, MacCommon.CGEvent(x, y, 0, 0, 0, 0))
    case ScrollEvent(_, w1, w2, _) => (MacCommon.ScrollWheel, MacCommon.CGEvent(0.0, 0.0, 0, 0, w1 as i64, w2 as i64))
  }

  /** What a listener hears of a simulated event. */
  function Heard(req: Request, last: bv64): Option<EventType>
  {
    var (t, ev) := Posted(req);
    MacCommon.ConvertType(t, ev, last).event_type
  }

  /** Round trip for the wheel: `delta_y` goes to the first wheel and `delta_x` to the second,
      which the decoder reads back as `delta_y` and `delta_x`. */
  lemma WheelRoundTrip(dx: i64, dy: i64, native: Native, last: bv64)
    requires IsI32(dx) && IsI32(dy)
    ensures RequestOf(Wheel(dx, dy), native) == Some(ScrollEvent(2, dy, dx, 0))
    ensures Heard(ScrollEvent(2, dy, dx, 0), last) == Some(Wheel(dx, dy))
  {
  }

  /** Round trip for named keys: the keycode survives the 16-bit cast and is heard as the same
      key, pressed or released. */
  lemma KeyRoundTrip(k: Key, c: u16, press: bool, native: Native, last: bv64)
    requires !k.Unknown? && MacKeycodes.CodeFromKey(k) == Some(c as u32)
    ensures var e := if press then KeyPress(k) else KeyRelease(k);
      RequestOf(e, native) == Some(KeyboardEvent(c, press))
      && Heard(KeyboardEvent(c, press), last) == Some(e)
  {
    assert MacKeycodes.KeyFromCode(c as u32) == k;
    HeardKey(c, press, last);
  }

  /** A keyboard event is heard as the key its keycode decodes to. */
  lemma HeardKey(c: u16, press: bool, last: bv64)
    ensures var k := MacKeycodes.KeyFromCode(c as u32);
      Heard(KeyboardEvent(c, press), last) == Some(if press then KeyPress(k) else KeyRelease(k))
  {
  }

  /** Every named key with a keycode has one that fits the 16-bit `CGKeyCode`. */
  lemma NamedKeyCodeFits(k: Key)
    requires !k.Unknown? && MacKeycodes.CodeFromKey(k).Some?
    ensures MacKeycodes.CodeFromKey(k).value < TWO_16
  {
    var c := MacKeycodes.CodeFromKey(k).value;
    assert MacKeycodes.KeyFromCode(c) == k;
    MacKeycodes.NamedCodeIsSmall(c);
  }

  /** Round trip for Left and Right buttons and for moves: the decoder hears the same event. */
  lemma MouseRoundTrip(e: EventType, native: Native, last: bv64)
    requires e.MouseMove? || ((e.ButtonPress? || e.ButtonRelease?) && (e.button.Left? || e.button.Right?))
    ensures RequestOf(e, native).Some? && Heard(RequestOf(e, native).value, last) == Some(e)
  {
  }
}
