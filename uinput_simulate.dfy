/** Event injection on Wayland (`src/linux/wayland/simulate.rs`): an `EventType` becomes one
    batch of kernel input events written to the virtual uinput device, always closed by a
    `SYN_REPORT`. The device is an oracle: a `UinputDevice` logs the batches written to it and
    accepts or refuses each by a fixed function of the batch and its position in the log. */
module UinputSimulate {
  import opened Ints
  import opened Wrappers
  import opened Rdev
  import EvdevKeycodes
  import EvdevGrab
  import GrabKeys

  /** A kernel `input_event` without its timestamp: a key (or button) with its state, a
      relative motion on an axis, or the `SYN_REPORT` that ends a report. */
  datatype UEvent = KeyEv(code: u16, value: i32) | RelEv(axis: u16, value: i32) | Syn

  /** `KeyState::PRESSED` and `KeyState::RELEASED`. */
  const PRESSED: i32 := 1
  const RELEASED: i32 := 0

  /** The relative axes of `input-event-codes.h` that the device writes or should write. */
  const REL_X: u16 := 0x00
  const REL_Y: u16 := 0x01
  const REL_WHEEL: u16 := 0x08
  const REL_WHEEL_HI_RES: u16 := 0x0b
  const REL_HWHEEL_HI_RES: u16 := 0x0c

  /** One notch of a high-resolution wheel. */
  const NOTCH: int := 120

  /** `send_key_event` and the button arms: the key event, then the report. */
  function KeyBatch(code: u16, value: i32): (b: seq<UEvent>)
    ensures |b| == 2 && b[1] == Syn
  {
    [KeyEv(code, value), Syn]
  }

  /** The uinput key of a mouse button; `Unknown` buttons have none. */
  function ButtonKey(b: Button): (r: Option<u16>)
    ensures r.None? <==> b.Unknown?
    ensures r.Some? ==> GrabKeys.EvdevKeyToRdevButton(r.value) == Some(b)
  {
    match b
    case Left => Some(GrabKeys.BTN_LEFT)
    case Right => Some(GrabKeys.BTN_RIGHT)
    case Middle => Some(GrabKeys.BTN_MIDDLE)
    case Unknown(_) => None
  }

  /** The wheel batch as written: `delta * 120` in `i64` (which wraps) cast to `i32` (which
      truncates; the two together keep the low 32 bits of the product), and BOTH deltas on the
      vertical high-resolution axis. */
  function WheelBatch(dx: i64, dy: i64): seq<UEvent>
  {
    [RelEv(REL_WHEEL_HI_RES, AsI32(dx * NOTCH)), RelEv(REL_WHEEL_HI_RES, AsI32(dy * NOTCH)), Syn]
  }

  /** The corrected wheel batch: the horizontal delta on the horizontal high-resolution axis. */
  function WheelBatchFixed(dx: i64, dy: i64): seq<UEvent>
  {
    [RelEv(REL_HWHEEL_HI_RES, AsI32(dx * NOTCH)), RelEv(REL_WHEEL_HI_RES, AsI32(dy * NOTCH)), Syn]
  }

  /** What `send` writes for an event: `Err` for an unknown button (nothing is written),
      `Ok(None)` for a key without a uinput key (nothing is written, and the call succeeds),
      otherwise the one batch. */
  function Batch(e: EventType): (r: Result<Option<seq<UEvent>>, SimulateError>)
    ensures r.Err? <==> (e.ButtonPress? || e.ButtonRelease?) && e.button.Unknown?
    ensures r == Ok(None) <==> (e.KeyPress? || e.KeyRelease?) && EvdevKeycodes.UkeyFromKey(e.key).None?
    ensures r.Ok? && r.value.Some? ==> 2 <= |r.value.value| <= 3 && r.value.value[|r.value.value| - 1] == Syn
    ensures r.Ok? && r.value.Some? && (e.KeyPress? || e.ButtonPress?) ==>
      r.value.value[0].KeyEv? && r.value.value[0].value == PRESSED
    ensures r.Ok? && r.value.Some? && (e.KeyRelease? || e.ButtonRelease?) ==>
      r.value.value[0].KeyEv? && r.value.value[0].value == RELEASED
  {
    match e
    case KeyPress(k) =>
      var code := EvdevKeycodes.UkeyFromKey(k);
      if code.None? then Ok(None) else Ok(Some(KeyBatch(code.value, PRESSED)))
    case KeyRelease(k) =>
      var code := EvdevKeycodes.UkeyFromKey(k);
      if code.None? then Ok(None) else Ok(Some(KeyBatch(code.value, RELEASED)))
    case ButtonPress(b) =>
      var code := ButtonKey(b);
      if code.None? then Err(SimulateError.SimulateError) else Ok(Some(KeyBatch(code.value, PRESSED)))
    case ButtonRelease(b) =>
      var code := ButtonKey(b);
      if code.None? then Err(SimulateError.SimulateError) else Ok(Some(KeyBatch(code.value, RELEASED)))
    case MouseMove(x, y) =>
      Ok(Some([RelEv(REL_X, RealAsI32(x)), RelEv(REL_Y, RealAsI32(y)), Syn]))
    case Wheel(dx, dy) =>
      Ok(Some(WheelBatch(dx, dy)))
  }

  /** The virtual device behind the global `HANDLE`. */
  class UinputDevice {
    var writes: seq<seq<UEvent>>
    const accepts: (nat, seq<UEvent>) -> bool

    constructor (accepts: (nat, seq<UEvent>) -> bool)
      ensures writes == [] && this.accepts == accepts
    {
      writes := [];
      this.accepts := accepts;
    }

    /** `handle.write`: the batch is logged, and a refusal becomes `SimulateError`. */
    method Write(batch: seq<UEvent>) returns (r: Result<(), SimulateError>)
      modifies this
      ensures writes == old(writes) + [batch]
      ensures r.Ok? <==> accepts(|old(writes)|, batch)
    {
      var ok := accepts(|writes|, batch);
      writes := writes + [batch];
      r := if ok then Ok(()) else Err(SimulateError.SimulateError);
    }
  }

  /** `Handle::send`. Without a device nothing is written and the result is `Ok`; with one, the
      event's batch (if any) is written, and the result is `Ok` exactly when the event has a
      batch or no key, and the device accepts the batch. */
  method Send(e: EventType, device: UinputDevice?) returns (r: Result<(), SimulateError>)
    modifies device
    ensures device == null ==> r == Ok(())
    ensures device != null && !(Batch(e).Ok? && Batch(e).value.Some?) ==>
      device.writes == old(device.writes) && r == (if Batch(e).Err? then Err(SimulateError.SimulateError) else Ok(()))
    ensures device != null && Batch(e).Ok? && Batch(e).value.Some? ==>
      device.writes == old(device.writes) + [Batch(e).value.value]
      && (r.Ok? <==> device.accepts(|old(device.writes)|, Batch(e).value.value))
  {
    if device == null {
      return Ok(());
    }
    match e {
      case KeyPress(k) =>
        var code := EvdevKeycodes.UkeyFromKey(k);
        if code.Some? {
          r := device.Write(KeyBatch(code.value, PRESSED));
        } else {
          r := Ok(());
        }
      case KeyRelease(k) =>
        var code := EvdevKeycodes.UkeyFromKey(k);
        if code.Some? {
          r := device.Write(KeyBatch(code.value, RELEASED));
        } else {
          r := Ok(());
        }
      case ButtonPress(b) =>
        var code := ButtonKey(b);
        if code.None? {
          return Err(SimulateError.SimulateError);
        }
        r := device.Write(KeyBatch(code.value, PRESSED));
      case ButtonRelease(b) =>
        var code := ButtonKey(b);
        if code.None? {
          return Err(SimulateError.SimulateError);
        }
        r := device.Write(KeyBatch(code.value, RELEASED));
      case MouseMove(x, y) =>
        r := device.Write([RelEv(REL_X, RealAsI32(x)), RelEv(REL_Y, RealAsI32(y)), Syn]);
      case Wheel(dx, dy) =>
        r := device.Write(WheelBatch(dx, dy));
    }
  }

  /** The motion one event reports on an axis. */
  function MotionOf(u: UEvent, axis: u16): int
  {
    if u.RelEv? && u.axis == axis then u.value else 0
  }

  /** The total motion a batch reports on one axis. */
  function Motion(batch: seq<UEvent>, axis: u16): int
    decreases |batch|
  {
    if batch == [] then 0 else MotionOf(batch[0], axis) + Motion(batch[1..], axis)
  }

  /** The motion of a three-event batch, event by event. */
  lemma MotionOfThree(a: UEvent, b: UEvent, c: UEvent, axis: u16)
    ensures Motion([a, b, c], axis) == MotionOf(a, axis) + MotionOf(b, axis) + MotionOf(c, axis)
  {
    assert [c][1..] == [];
    assert Motion([c], axis) == MotionOf(c, axis);
    assert [b, c][1..] == [c];
    assert Motion([b, c], axis) == MotionOf(b, axis) + MotionOf(c, axis);
    assert [a, b, c][1..] == [b, c];
  }

  /** As written, a wheel event scrolls only the vertical axis, by both deltas together. */
  lemma WheelScrollsVertically(dx: i64, dy: i64)
    requires IsI32(dx * NOTCH) && IsI32(dy * NOTCH)
    ensures Batch(Wheel(dx, dy)) == Ok(Some(WheelBatch(dx, dy)))
    ensures Motion(WheelBatch(dx, dy), REL_WHEEL_HI_RES) == (dx + dy) * NOTCH
    ensures Motion(WheelBatch(dx, dy), REL_HWHEEL_HI_RES) == 0
  {
    var b := WheelBatch(dx, dy);
    MotionOfThree(b[0], b[1], b[2], REL_WHEEL_HI_RES);
    MotionOfThree(b[0], b[1], b[2], REL_HWHEEL_HI_RES);
  }

  /** One notch to the right is indistinguishable from one notch down: both report 120 on the
      vertical axis and nothing on the horizontal one. */
  lemma WheelAxesCollide()
    ensures Motion(WheelBatch(1, 0), REL_WHEEL_HI_RES) == Motion(WheelBatch(0, 1), REL_WHEEL_HI_RES) == NOTCH
    ensures Motion(WheelBatch(1, 0), REL_HWHEEL_HI_RES) == Motion(WheelBatch(0, 1), REL_HWHEEL_HI_RES) == 0
  {
    WheelScrollsVertically(1, 0);
    WheelScrollsVertically(0, 1);
  }

  /** The corrected batch reports each delta on its own axis, so different wheel events whose
      amounts fit report different motions. */
  lemma WheelBatchFixedAxes(dx: i64, dy: i64)
    requires IsI32(dx * NOTCH) && IsI32(dy * NOTCH)
    ensures Motion(WheelBatchFixed(dx, dy), REL_HWHEEL_HI_RES) == dx * NOTCH
    ensures Motion(WheelBatchFixed(dx, dy), REL_WHEEL_HI_RES) == dy * NOTCH
    ensures forall dx2: i64, dy2: i64 {:trigger WheelBatchFixed(dx2, dy2)} ::
      IsI32(dx2 * NOTCH) && IsI32(dy2 * NOTCH) && (dx2, dy2) != (dx, dy) ==>
        Motion(WheelBatchFixed(dx2, dy2), REL_HWHEEL_HI_RES) != dx * NOTCH
        || Motion(WheelBatchFixed(dx2, dy2), REL_WHEEL_HI_RES) != dy * NOTCH
  {
    forall dx2: i64, dy2: i64 | IsI32(dx2 * NOTCH) && IsI32(dy2 * NOTCH)
      ensures Motion(WheelBatchFixed(dx2, dy2), REL_HWHEEL_HI_RES) == dx2 * NOTCH
      ensures Motion(WheelBatchFixed(dx2, dy2), REL_WHEEL_HI_RES) == dy2 * NOTCH
    {
      var b := WheelBatchFixed(dx2, dy2);
      MotionOfThree(b[0], b[1], b[2], REL_WHEEL_HI_RES);
      MotionOfThree(b[0], b[1], b[2], REL_HWHEEL_HI_RES);
    }
  }

  /** A key without a uinput key writes nothing, yet the call succeeds. */
  lemma UnmappedKeyWritesNothing(k: Key)
    requires EvdevKeycodes.UinputUnmapped(k)
    ensures Batch(KeyPress(k)) == Ok(None) && Batch(KeyRelease(k)) == Ok(None)
  {
    if k.MetaRight? {
      EvdevKeycodes.UinputHasNoCodeMetaRight();
    } else if k.IntlBackslash? {
      EvdevKeycodes.UinputHasNoCodeIntlBackslash();
    } else if k.KpDelete? {
      EvdevKeycodes.UinputHasNoCodeKpDelete();
    } else {
      EvdevKeycodes.UinputHasNoCodeFunction();
    }
  }

  /** The evdev input event a written event becomes for a reader of the device. */
  function AsInput(u: UEvent): EvdevGrab.InputEvent
  {
    match u
    case KeyEv(code, value) => EvdevGrab.InputEvent(EvdevGrab.EvKey(code), value)
    case RelEv(axis, value) => EvdevGrab.InputEvent(EvdevGrab.EvRel(axis), value)
    case Syn => EvdevGrab.InputEvent(EvdevGrab.EvOther, 0)
  }

  /** A batch as the reader of the device sees it. */
  function AsInputs(batch: seq<UEvent>): (r: seq<EvdevGrab.InputEvent>)
    ensures |r| == |batch|
  {
    seq(|batch|, i requires 0 <= i < |batch| => AsInput(batch[i]))
  }

  /** Round trip through the evdev grab decoder: a pressed or released button (other than
      `Unknown`) is read back as the same button action, and the report after it decodes to
      nothing. */
  lemma ButtonRoundTrip(b: Button, press: bool, x: real, y: real, w: real, h: real)
    requires !b.Unknown?
    ensures var e := if press then ButtonPress(b) else ButtonRelease(b);
      Batch(e).Ok? && Batch(e).value.Some?
      && EvdevGrab.Decode(AsInput(Batch(e).value.value[0]), x, y, w, h).event_type == Some(e)
      && EvdevGrab.Decode(AsInput(Batch(e).value.value[1]), x, y, w, h).event_type.None?
  {
  }

  /** A written move is read back by the grab decoder as a relative motion: starting from
      `(px, py)`, the tracked position becomes the clamped sum of the old position and the
      truncated coordinates. */
  lemma MoveIsRelative(x: real, y: real, px: real, py: real, w: real, h: real)
    ensures Batch(MouseMove(x, y)).Ok? && Batch(MouseMove(x, y)).value.Some?
    ensures var t := EvdevGrab.DecodeAll(AsInputs(Batch(MouseMove(x, y)).value.value), px, py, w, h);
      t.x == EvdevGrab.ClampToScreen(px + RealAsI32(x) as real, w)
      && t.y == EvdevGrab.ClampToScreen(py + RealAsI32(y) as real, h)
  {
    var evs := AsInputs(Batch(MouseMove(x, y)).value.value);
    assert evs == [AsInput(RelEv(REL_X, RealAsI32(x))), AsInput(RelEv(REL_Y, RealAsI32(y))), AsInput(Syn)];
    var d0 := EvdevGrab.Decode(evs[0], px, py, w, h);
    var d1 := EvdevGrab.Decode(evs[1], d0.x, d0.y, w, h);
    assert evs[1..][1..] == [evs[2]];
    assert EvdevGrab.DecodeAll([evs[2]], d1.x, d1.y, w, h) == EvdevGrab.Tracked(None, d1.x, d1.y);
    assert EvdevGrab.DecodeAll(evs[1..], d0.x, d0.y, w, h) == EvdevGrab.DecodeAll([evs[2]], d1.x, d1.y, w, h);
    assert EvdevGrab.DecodeAll(evs, px, py, w, h) == EvdevGrab.DecodeAll(evs[1..], d0.x, d0.y, w, h);
  }

  /** The grab decoder knows only the low-resolution wheel axes: every event of a written wheel
      batch decodes to nothing, so injected scrolling is never heard by it. */
  lemma WheelUnheardByGrab(dx: i64, dy: i64, x: real, y: real, w: real, h: real)
    ensures var b := Batch(Wheel(dx, dy));
      b.Ok? && b.value.Some? && |b.value.value| == 3
      && forall i :: 0 <= i < 3 ==> EvdevGrab.Decode(AsInput(b.value.value[i]), x, y, w, h).event_type.None?
  {
  }
}
