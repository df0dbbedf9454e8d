/** Listening on Wayland through libinput (`src/linux/wayland/listen.rs`): the conversion of a
    libinput event into an `EventType`, and into an `Event` whose name is always `None` (the
    Wayland keyboard never names a key). */
module LibinputListen {
  import opened Ints
  import opened Wrappers
  import opened Rdev
  import EvdevKeycodes
  import UinputSimulate
  import EvdevGrab

  /** The libinput events the conversion looks at; every other kind is `Other`. A keyboard event
      carries its kernel key code, a button event its kernel button code, and a wheel event its
      two `v120` scroll values. */
  datatype LibEvent =
    | Keyboard(key: u32, pressed: bool)
    | PointerButton(button: u32, pressed: bool)
    | PointerMotion(dx_unaccelerated: real, dy_unaccelerated: real)
    | PointerMotionAbsolute(absolute_x: real, absolute_y: real)
    | ScrollWheel(v120_horizontal: real, v120_vertical: real)
    | Other

  /** The kernel codes of the three buttons libinput reports. */
  const BTN_LEFT: u32 := 272
  const BTN_RIGHT: u32 := 273
  const BTN_MIDDLE: u32 := 274

  /** A `v120` scroll value in notches: negated, then truncated toward zero (saturating). */
  function Notches(v120: real): (n: i64)
    ensures -120.0 < v120 < 120.0 ==> n == 0
  {
    RealAsI64(-(v120 / 120.0))
  }

  /** `convert_type`. */
  function ConvertType(ev: LibEvent): (r: Option<EventType>)
    ensures ev.Keyboard? ==>
      r == Some(if ev.pressed then KeyPress(EvdevKeycodes.KeyFromCode(ev.key)) else KeyRelease(EvdevKeycodes.KeyFromCode(ev.key)))
    ensures ev.PointerButton? ==> (r.Some? <==> ev.button in {BTN_LEFT, BTN_RIGHT, BTN_MIDDLE})
    ensures ev.PointerButton? && r.Some? ==>
      (if ev.pressed then r.value.ButtonPress? else r.value.ButtonRelease?) && !r.value.button.Unknown?
    ensures ev.PointerMotion? ==> r == Some(MouseMove(ev.dx_unaccelerated, ev.dy_unaccelerated))
    ensures ev.PointerMotionAbsolute? ==> r == Some(MouseMove(ev.absolute_x, ev.absolute_y))
    ensures ev.ScrollWheel? ==> r == Some(Wheel(Notches(ev.v120_horizontal), Notches(ev.v120_vertical)))
    ensures r.None? <==> ev.Other? || (ev.PointerButton? && ev.button !in {BTN_LEFT, BTN_RIGHT, BTN_MIDDLE})
  {
    match ev
    case Keyboard(key, pressed) =>
      var k := EvdevKeycodes.KeyFromCode(key);
      Some(if pressed then KeyPress(k) else KeyRelease(k))
    case PointerButton(button, pressed) =>
      var b :=
        if button == BTN_LEFT then Some(Left)
        else if button == BTN_RIGHT then Some(Right)
        else if button == BTN_MIDDLE then Some(Middle)
        else None;
      if b.None? then None
      else Some(if pressed then ButtonPress(b.value) else ButtonRelease(b.value))
    case PointerMotion(dx, dy) => Some(MouseMove(dx, dy))
    case PointerMotionAbsolute(x, y) => Some(MouseMove(x, y))
    case ScrollWheel(h, v) => Some(Wheel(Notches(h), Notches(v)))
    case Other => None
  }

  /** `convert`: the converted type with the name the Wayland keyboard gives, which is none. */
  function Convert(ev: LibEvent): (r: Option<Event>)
    ensures r.None? <==> ConvertType(ev).None?
    ensures r.Some? ==> r.value.event_type == ConvertType(ev).value && r.value.name.None?
  {
    var t := ConvertType(ev);
    if t.None? then None else Some(Event(None, t.value))
  }

  /** A relative libinput motion is reported as its unaccelerated deltas, not as a position:
      the same motion twice gives the same `MouseMove` both times. The evdev grab instead adds
      each `REL_X` delta to the position it tracks, so the same delta twice gives two different
      `MouseMove` positions. */
  lemma RelativeMotionNotTracked(d: i32, x: real, y: real, w: real, h: real)
    requires 0 < d && 0.0 <= x && x + 2.0 * d as real <= w && 0.0 <= y <= h
    ensures ConvertType(PointerMotion(d as real, 0.0)) == Some(MouseMove(d as real, 0.0))
    ensures var ev := EvdevGrab.InputEvent(EvdevGrab.EvRel(EvdevGrab.REL_X), d);
      var first := EvdevGrab.Decode(ev, x, y, w, h);
      var second := EvdevGrab.Decode(ev, first.x, first.y, w, h);
      first.event_type == Some(MouseMove(x + d as real, y))
      && second.event_type == Some(MouseMove(x + 2.0 * d as real, y))
      && first.event_type != second.event_type
  {
  }

  /** Codes 272, 273 and 274 are the left, right and middle buttons, in both states. */
  lemma ButtonsDecoded(pressed: bool)
    ensures ConvertType(PointerButton(272, pressed)) == Some(if pressed then ButtonPress(Left) else ButtonRelease(Left))
    ensures ConvertType(PointerButton(273, pressed)) == Some(if pressed then ButtonPress(Right) else ButtonRelease(Right))
    ensures ConvertType(PointerButton(274, pressed)) == Some(if pressed then ButtonPress(Middle) else ButtonRelease(Middle))
  {
  }

  /** A wheel turned by whole notches is reported as that many notches, with the sign flipped:
      libinput counts downward scrolling as positive `v120`. */
  lemma ScrollByNotches(h: i64, v: i64)
    requires -0x7FFF_FFFF_FFFF_FFFF <= h && -0x7FFF_FFFF_FFFF_FFFF <= v
    ensures ConvertType(ScrollWheel((-120 * h) as real, (-120 * v) as real)) == Some(Wheel(h, v))
  {
    WholeNotches(h);
    WholeNotches(v);
  }

  /** A `v120` value of a whole number of notches converts back to that number, negated. */
  lemma WholeNotches(n: i64)
    requires -0x7FFF_FFFF_FFFF_FFFF <= n
    ensures Notches((-120 * n) as real) == n
  {
    var r := (-120 * n) as real;
    assert r == 120.0 * (-n) as real;
    assert r / 120.0 == (-n) as real;
    var t := TruncReal(n as real);
    assert t == n;
  }

  /** Round trip through uinput and libinput: a button written to the virtual device (as the
      key event of its kernel code) is reported by libinput as the same button action. */
  lemma ButtonRoundTrip(b: Button, press: bool)
    requires !b.Unknown?
    ensures var e := if press then ButtonPress(b) else ButtonRelease(b);
      var batch := UinputSimulate.Batch(e);
      batch.Ok? && batch.value.Some? && batch.value.value[0].KeyEv?
      && ConvertType(PointerButton(batch.value.value[0].code as u32, batch.value.value[0].value == UinputSimulate.PRESSED))
        == Some(e)
  {
  }

  /** Round trip through uinput and libinput for keys: when the uinput table and the evdev table
      give a key the same code, the key written to the device is reported as the same key. */
  lemma KeyRoundTrip(k: Key, c: u16, press: bool)
    requires !k.Unknown? && EvdevKeycodes.UkeyFromKey(k) == Some(c) && EvdevKeycodes.CodeFromKey(k) == Some(c as u32)
    ensures var e := if press then KeyPress(k) else KeyRelease(k);
      UinputSimulate.Batch(e) == Ok(Some(UinputSimulate.KeyBatch(c, if press then UinputSimulate.PRESSED else UinputSimulate.RELEASED)))
      && ConvertType(Keyboard(c as u32, press)) == Some(e)
  {
    assert EvdevKeycodes.KeyFromCode(c as u32) == k;
  }

  /** The two tables disagree on `Insert` and `Delete`: an injected `Delete` is written as the
      kernel's `KEY_DELETE` (111), which the listener's table reads as `Insert`, and the other way
      round. */
  lemma DeleteHeardAsInsert(press: bool)
    ensures EvdevKeycodes.UkeyFromKey(Delete) == Some(111) && EvdevKeycodes.UkeyFromKey(Insert) == Some(110)
    ensures ConvertType(Keyboard(111, press)) == Some(if press then KeyPress(Insert) else KeyRelease(Insert))
    ensures ConvertType(Keyboard(110, press)) == Some(if press then KeyPress(Delete) else KeyRelease(Delete))
  {
    assert EvdevKeycodes.KeyFromCode(111) == Insert;
    assert EvdevKeycodes.KeyFromCode(110) == Delete;
  }

  /** The listen table as evidently intended: `Insert` and `Delete` numbered as the kernel numbers
      them (`KEY_INSERT` is 110, `KEY_DELETE` 111), as the uinput table, the grab table and the X11
      table (which adds 8) do; every other code decodes as before. */
  function KeyFromCodeFixed(code: u32): (k: Key)
  {
    if code == 110 then Insert else if code == 111 then Delete else EvdevKeycodes.KeyFromCode(code)
  }

  /** `convert_type` over the corrected table. */
  function ConvertTypeFixed(ev: LibEvent): (r: Option<EventType>)
    ensures !ev.Keyboard? ==> r == ConvertType(ev)
    ensures ev.Keyboard? && ev.key != 110 && ev.key != 111 ==> r == ConvertType(ev)
  {
    if ev.Keyboard? then
      var k := KeyFromCodeFixed(ev.key);
      Some(if ev.pressed then KeyPress(k) else KeyRelease(k))
    else ConvertType(ev)
  }

  /** The correction changes nothing for the other keys: a named key on which the uinput table
      and the listen table already agreed is still heard as itself. */
  lemma FixedKeyRoundTrip(k: Key, c: u16, press: bool)
    requires !k.Unknown? && EvdevKeycodes.UkeyFromKey(k) == Some(c) && EvdevKeycodes.CodeFromKey(k) == Some(c as u32)
    ensures var e := if press then KeyPress(k) else KeyRelease(k);
      ConvertTypeFixed(Keyboard(c as u32, press)) == Some(e)
  {
    KeyRoundTrip(k, c, press);
    NotInsertDeleteCode(c);
  }

  /** A code that the uinput table and the listen table read as the same key is neither 110 nor
      111: the two tables read those codes as `Insert` and `Delete` the other way round. */
  lemma NotInsertDeleteCode(c: u16)
    requires EvdevKeycodes.KeyFromUkey(c) == EvdevKeycodes.KeyFromCode(c as u32)
    ensures c != 110 && c != 111
  {
    assert EvdevKeycodes.KeyFromUkey(110) == Insert && EvdevKeycodes.KeyFromCode(110) == Delete;
    assert EvdevKeycodes.KeyFromUkey(111) == Delete && EvdevKeycodes.KeyFromCode(111) == Insert;
  }

  /** With the corrected table an injected `Insert` or `Delete` is heard as itself. */
  lemma InsertDeleteFixed(press: bool)
    ensures EvdevKeycodes.UkeyFromKey(Insert) == Some(110) && EvdevKeycodes.UkeyFromKey(Delete) == Some(111)
    ensures ConvertTypeFixed(Keyboard(110, press)) == Some(if press then KeyPress(Insert) else KeyRelease(Insert))
    ensures ConvertTypeFixed(Keyboard(111, press)) == Some(if press then KeyPress(Delete) else KeyRelease(Delete))
  {
  }
}
