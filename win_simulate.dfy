/** Event injection on Windows (`src/windows/simulate.rs`): an `EventType` becomes the
    `SendInput` records it issues, in order. `SendInput` is an oracle: an `InputQueue` logs the
    records it receives and answers each by a fixed function of the record and its position in
    the log; an answer other than 1 is a failure. */
module WinSimulate {
  import opened Ints
  import opened Wrappers
  import opened Rdev
  import WinKeycodes
  import WinCommon

  /** The `INPUT` records: a `KEYBDINPUT` or a `MOUSEINPUT` (time and extra info are always 0). */
  datatype Input =
    | KeyboardInput(flags: u32, vk: u16, scan: u16)
    | MouseInput(flags: u32, data: u32, dx: i32, dy: i32)

  /** The flags of `winuser.h`; a key press has no flag (`KEYEVENTF_KEYDOWN` is 0). */
  const KEYEVENTF_KEYDOWN: u32 := 0
  const KEYEVENTF_KEYUP: u32 := 0x2
  const MOUSEEVENTF_MOVE: u32 := 0x1
  const MOUSEEVENTF_LEFTDOWN: u32 := 0x2
  const MOUSEEVENTF_LEFTUP: u32 := 0x4
  const MOUSEEVENTF_RIGHTDOWN: u32 := 0x8
  const MOUSEEVENTF_RIGHTUP: u32 := 0x10
  const MOUSEEVENTF_MIDDLEDOWN: u32 := 0x20
  const MOUSEEVENTF_MIDDLEUP: u32 := 0x40
  const MOUSEEVENTF_XDOWN: u32 := 0x80
  const MOUSEEVENTF_XUP: u32 := 0x100
  const MOUSEEVENTF_WHEEL: u32 := 0x800
  const MOUSEEVENTF_HWHEEL: u32 := 0x1000
  const MOUSEEVENTF_VIRTUALDESK: u32 := 0x4000
  const MOUSEEVENTF_ABSOLUTE: u32 := 0x8000

  /** `MOVE | ABSOLUTE | VIRTUALDESK`. */
  const MOUSEEVENTF_MOVE_ABSOLUTE: u32 := 0xC001

  /** The wheel's `mouseData` as written: the delta must fit in a `c_short` (else `None`), and is
      then multiplied by `WHEEL_DELTA` in `c_short` arithmetic, which wraps, and sign-extended to
      `u32`. */
  function WheelData(delta: int): (r: Option<u32>)
    ensures r.Some? <==> IsI16(delta)
    ensures r.Some? && IsI16(delta * WinCommon.WHEEL_DELTA) ==> r.value == AsU32(delta * WinCommon.WHEEL_DELTA)
  {
    if !IsI16(delta) then None else Some(AsU32(AsI16(delta * WinCommon.WHEEL_DELTA)))
  }

  /** The corrected wheel data: the multiplication is checked too, so an amount that does not fit
      in a `c_short` is refused instead of wrapping. */
  function WheelDataChecked(delta: int): Option<u32>
  {
    if !IsI16(delta) || !IsI16(delta * WinCommon.WHEEL_DELTA) then None
    else Some(AsU32(delta * WinCommon.WHEEL_DELTA))
  }

  /** One absolute coordinate: `(v as i32 + 1) * 65535 / size` in `i32` arithmetic (the float
      cast saturates, the sum and product wrap, the division truncates). */
  function Absolute(v: real, size: i32): i32
    requires size != 0
  {
    AsI32(Div(AsI32(AsI32(RealAsI32(v) + 1) * 65535), size))
  }

  /** What `simulate` will do for an event: the records it sends in order, and whether a
      conversion fails after them (a key without a code, a wheel delta outside `c_short`, an
      empty virtual screen). */
  datatype Plan = Plan(records: seq<Input>, fails: bool)

  /** The horizontal or vertical wheel part of the plan: a record when the delta is non-zero and
      fits, a failure when it does not fit, nothing when it is zero. */
  function WheelPart(flags: u32, delta: int): Plan
  {
    if delta == 0 then Plan([], false)
    else if WheelData(delta).None? then Plan([], true)
    else Plan([MouseInput(flags, WheelData(delta).value, 0, 0)], false)
  }

  /** The key part of the plan: the key's record, or a failure when it has no code. */
  function KeyPart(flags: u32, code: Option<u16>): Plan
  {
    if code.None? then Plan([], true) else Plan([KeyboardInput(flags, code.value, 0)], false)
  }

  function PlanOf(e: EventType, width: i32, height: i32): (p: Plan)
    ensures !e.Wheel? ==> (|p.records| == 1 && !p.fails) || (p.records == [] && p.fails)
    ensures e.Wheel? ==> (p.fails <==> (e.delta_x != 0 && !IsI16(e.delta_x)) || (e.delta_y != 0 && !IsI16(e.delta_y)))
    ensures e.Wheel? ==> |p.records| <= 2
  {
    match e
    case KeyPress(k) => KeyPart(KEYEVENTF_KEYDOWN, WinKeycodes.CodeFromKey(k))
    case KeyRelease(k) => KeyPart(KEYEVENTF_KEYUP, WinKeycodes.CodeFromKey(k))
    case ButtonPress(b) =>
      Plan([match b
            case Left => MouseInput(MOUSEEVENTF_LEFTDOWN, 0, 0, 0)
            case Middle => MouseInput(MOUSEEVENTF_MIDDLEDOWN, 0, 0, 0)
            case Right => MouseInput(MOUSEEVENTF_RIGHTDOWN, 0, 0, 0)
            case Unknown(c) => MouseInput(MOUSEEVENTF_XDOWN, c, 0, 0)], false)
    case ButtonRelease(b) =>
      Plan([match b
            case Left => MouseInput(MOUSEEVENTF_LEFTUP, 0, 0, 0)
            case Middle => MouseInput(MOUSEEVENTF_MIDDLEUP, 0, 0, 0)
            case Right => MouseInput(MOUSEEVENTF_RIGHTUP, 0, 0, 0)
            case Unknown(c) => MouseInput(MOUSEEVENTF_XUP, c, 0, 0)], false)
    case Wheel(dx, dy) =>
      var h := WheelPart(MOUSEEVENTF_HWHEEL, dx);
      if h.fails then h
      else
        var v := WheelPart(MOUSEEVENTF_WHEEL, dy);
        Plan(h.records + v.records, v.fails)
    case MouseMove(x, y) =>
      if width == 0 || height == 0 then Plan([], true)
      else Plan([MouseInput(MOUSEEVENTF_MOVE_ABSOLUTE, 0, Absolute(x, width), Absolute(y, height))], false)
  }

  /** The records that actually reach `SendInput` when `recs` are sent from log position `start`
      on: sending stops after the first record that is not accepted. */
  function Sent(send_input: (nat, Input) -> u32, start: nat, recs: seq<Input>): (r: seq<Input>)
    ensures |r| <= |recs| && r == recs[..|r|]
    decreases |recs|
  {
    if recs == [] then []
    else if send_input(start, recs[0]) != 1 then [recs[0]]
    else [recs[0]] + Sent(send_input, start + 1, recs[1..])
  }

  /** Whether every record of `recs`, sent from `start` on, is accepted. */
  predicate Accepted(send_input: (nat, Input) -> u32, start: nat, recs: seq<Input>)
    decreases |recs|
  {
    recs == [] || (send_input(start, recs[0]) == 1 && Accepted(send_input, start + 1, recs[1..]))
  }

  /** When every record is accepted, all of them are sent. */
  lemma {:induction false} AcceptedSendsAll(send_input: (nat, Input) -> u32, start: nat, recs: seq<Input>)
    requires Accepted(send_input, start, recs)
    ensures Sent(send_input, start, recs) == recs
    decreases |recs|
  {
    if recs != [] {
      AcceptedSendsAll(send_input, start + 1, recs[1..]);
    }
  }

  /** Sending `a + b` when every record of `a` is accepted sends all of `a`, then what `b`
      sends from where `a` ends; a refused first record stops everything after it. */
  lemma {:induction false} SentAppend(send_input: (nat, Input) -> u32, start: nat, a: seq<Input>, b: seq<Input>)
    ensures Accepted(send_input, start, a) ==>
      Sent(send_input, start, a + b) == a + Sent(send_input, start + |a|, b)
      && (Accepted(send_input, start, a + b) <==> Accepted(send_input, start + |a|, b))
    ensures |a| == 1 && send_input(start, a[0]) != 1 ==>
      Sent(send_input, start, a + b) == a && !Accepted(send_input, start, a + b)
    decreases |a|
  {
    if a != [] {
      assert (a + b)[0] == a[0];
      assert (a + b)[1..] == a[1..] + b;
      SentAppend(send_input, start + 1, a[1..], b);
    } else {
      assert a + b == b;
    }
  }

  /** `SendInput` behind `sim_mouse_event` and `sim_keyboard_event`. */
  class InputQueue {
    var issued: seq<Input>
    const send_input: (nat, Input) -> u32

    constructor (send_input: (nat, Input) -> u32)
      ensures issued == [] && this.send_input == send_input
    {
      issued := [];
      this.send_input := send_input;
    }

    /** One record: it is logged, and the result is `Ok` exactly when `SendInput` answers 1. */
    method Send(i: Input) returns (r: Result<(), SimulateError>)
      modifies this
      ensures issued == old(issued) + [i]
      ensures r.Ok? <==> send_input(|old(issued)|, i) == 1
    {
      var value := send_input(|issued|, i);
      issued := issued + [i];
      if value != 1 {
        r := Err(SimulateError.SimulateError);
      } else {
        r := Ok(());
      }
    }

    /** `sim_mouse_event`. */
    method SimMouseEvent(flags: u32, data: u32, dx: i32, dy: i32) returns (r: Result<(), SimulateError>)
      modifies this
      ensures issued == old(issued) + [MouseInput(flags, data, dx, dy)]
      ensures r.Ok? <==> send_input(|old(issued)|, MouseInput(flags, data, dx, dy)) == 1
    {
      r := Send(MouseInput(flags, data, dx, dy));
    }

    /** `sim_keyboard_event`. */
    method SimKeyboardEvent(flags: u32, vk: u16, scan: u16) returns (r: Result<(), SimulateError>)
      modifies this
      ensures issued == old(issued) + [KeyboardInput(flags, vk, scan)]
      ensures r.Ok? <==> send_input(|old(issued)|, KeyboardInput(flags, vk, scan)) == 1
    {
      r := Send(KeyboardInput(flags, vk, scan));
    }

    /** The wheel arm: the horizontal record first, then the vertical one, each only for a
        non-zero delta; a conversion or send failure returns at once. */
    method Scroll(dx: i64, dy: i64) returns (r: Result<(), SimulateError>)
      modifies this
      ensures issued == old(issued) + Sent(send_input, |old(issued)|, PlanOf(Wheel(dx, dy), 0, 0).records)
      ensures r.Ok? <==> Accepted(send_input, |old(issued)|, PlanOf(Wheel(dx, dy), 0, 0).records)
                         && !PlanOf(Wheel(dx, dy), 0, 0).fails
    {
      ghost var start := |issued|;
      ghost var h := WheelPart(MOUSEEVENTF_HWHEEL, dx);
      ghost var v := WheelPart(MOUSEEVENTF_WHEEL, dy);
      assert PlanOf(Wheel(dx, dy), 0, 0) == if h.fails then h else Plan(h.records + v.records, v.fails);
      if dx != 0 {
        var data := WheelData(dx);
        if data.None? {
          return Err(SimulateError.SimulateError);
        }
        r := SimMouseEvent(MOUSEEVENTF_HWHEEL, data.value, 0, 0);
        SentAppend(send_input, start, h.records, v.records);
        if r.Err? {
          return;
        }
      } else {
        assert h.records + v.records == v.records;
      }
      assert issued == old(issued) + h.records && Accepted(send_input, start, h.records);
      SentAppend(send_input, start, h.records, v.records);
      if dy != 0 {
        var data := WheelData(dy);
        if data.None? {
          assert h.records + v.records == h.records;
          return Err(SimulateError.SimulateError);
        }
        r := SimMouseEvent(MOUSEEVENTF_WHEEL, data.value, 0, 0);
        if r.Err? {
          return;
        }
      }
      r := Ok(());
    }

    /** `simulate`: the log grows by the records of the event's plan up to the first refused
        one, and the result is `Ok` exactly when they are all accepted and no conversion fails.
        `width` and `height` are what `GetSystemMetrics` reports for the virtual screen. */
    method Simulate(e: EventType, width: i32, height: i32) returns (r: Result<(), SimulateError>)
      modifies this
      ensures issued == old(issued) + Sent(send_input, |old(issued)|, PlanOf(e, width, height).records)
      ensures r.Ok? <==> Accepted(send_input, |old(issued)|, PlanOf(e, width, height).records)
                         && !PlanOf(e, width, height).fails
    {
      match e {
        case KeyPress(k) =>
          var code := WinKeycodes.CodeFromKey(k);
          if code.None? {
            return Err(SimulateError.SimulateError);
          }
          r := SimKeyboardEvent(KEYEVENTF_KEYDOWN, code.value, 0);
        case KeyRelease(k) =>
          var code := WinKeycodes.CodeFromKey(k);
          if code.None? {
            return Err(SimulateError.SimulateError);
          }
          r := SimKeyboardEvent(KEYEVENTF_KEYUP, code.value, 0);
        case ButtonPress(b) =>
          match b {
            case Left => r := SimMouseEvent(MOUSEEVENTF_LEFTDOWN, 0, 0, 0);
            case Middle => r := SimMouseEvent(MOUSEEVENTF_MIDDLEDOWN, 0, 0, 0);
            case Right => r := SimMouseEvent(MOUSEEVENTF_RIGHTDOWN, 0, 0, 0);
            case Unknown(c) => r := SimMouseEvent(MOUSEEVENTF_XDOWN, c, 0, 0);
          }
        case ButtonRelease(b) =>
          match b {
            case Left => r := SimMouseEvent(MOUSEEVENTF_LEFTUP, 0, 0, 0);
            case Middle => r := SimMouseEvent(MOUSEEVENTF_MIDDLEUP, 0, 0, 0);
            case Right => r := SimMouseEvent(MOUSEEVENTF_RIGHTUP, 0, 0, 0);
            case Unknown(c) => r := SimMouseEvent(MOUSEEVENTF_XUP, c, 0, 0);
          }
        case Wheel(dx, dy) =>
          r := Scroll(dx, dy);
        case MouseMove(x, y) =>
          if width == 0 || height == 0 {
            return Err(SimulateError.SimulateError);
          }
          r := SimMouseEvent(MOUSEEVENTF_MOVE_ABSOLUTE, 0, Absolute(x, width), Absolute(y, height));
      }
    }
  }

  /** A key without a virtual-key code fails before anything is sent. */
  lemma UnmappedKeySendsNothing(k: Key, width: i32, height: i32)
    requires WinKeycodes.CodeFromKey(k).None?
    ensures PlanOf(KeyPress(k), width, height) == Plan([], true)
    ensures PlanOf(KeyRelease(k), width, height) == Plan([], true)
  {
  }

  /** A press and a release send the same virtual key; only the release carries `KEYUP`. */
  lemma PressAndReleaseShareKey(k: Key, c: u16, width: i32, height: i32)
    requires WinKeycodes.CodeFromKey(k) == Some(c)
    ensures PlanOf(KeyPress(k), width, height) == Plan([KeyboardInput(KEYEVENTF_KEYDOWN, c, 0)], false)
    ensures PlanOf(KeyRelease(k), width, height) == Plan([KeyboardInput(KEYEVENTF_KEYUP, c, 0)], false)
  {
    KeyPressPlan(k, c, width, height);
    KeyReleasePlan(k, c, width, height);
  }

  lemma KeyPressPlan(k: Key, c: u16, width: i32, height: i32)
    requires WinKeycodes.CodeFromKey(k) == Some(c)
    ensures PlanOf(KeyPress(k), width, height) == Plan([KeyboardInput(KEYEVENTF_KEYDOWN, c, 0)], false)
  {
    KeyPlans(k, width, height);
  }

  lemma KeyReleasePlan(k: Key, c: u16, width: i32, height: i32)
    requires WinKeycodes.CodeFromKey(k) == Some(c)
    ensures PlanOf(KeyRelease(k), width, height) == Plan([KeyboardInput(KEYEVENTF_KEYUP, c, 0)], false)
  {
    KeyPlans(k, width, height);
  }

  lemma KeyPlans(k: Key, width: i32, height: i32)
    ensures PlanOf(KeyPress(k), width, height) == KeyPart(KEYEVENTF_KEYDOWN, WinKeycodes.CodeFromKey(k))
    ensures PlanOf(KeyRelease(k), width, height) == KeyPart(KEYEVENTF_KEYUP, WinKeycodes.CodeFromKey(k))
  {
  }

  /** An unknown button is an X button whose number travels in `mouseData`. */
  lemma UnknownButtonIsXButton(c: u8, width: i32, height: i32)
    ensures PlanOf(ButtonPress(Button.Unknown(c)), width, height) == Plan([MouseInput(MOUSEEVENTF_XDOWN, c, 0, 0)], false)
    ensures PlanOf(ButtonRelease(Button.Unknown(c)), width, height) == Plan([MouseInput(MOUSEEVENTF_XUP, c, 0, 0)], false)
  {
  }

  /** With both deltas in range, the wheel sends the horizontal record first iff `delta_x` is
      non-zero, then the vertical one iff `delta_y` is non-zero; with both zero nothing is sent
      and the result is `Ok`. */
  lemma WheelRecords(dx: i64, dy: i64, send_input: (nat, Input) -> u32, start: nat)
    requires IsI16(dx) && IsI16(dy)
    ensures var p := PlanOf(Wheel(dx, dy), 0, 0);
      !p.fails
      && p.records == (if dx != 0 then [MouseInput(MOUSEEVENTF_HWHEEL, WheelData(dx).value, 0, 0)] else [])
                    + (if dy != 0 then [MouseInput(MOUSEEVENTF_WHEEL, WheelData(dy).value, 0, 0)] else [])
    ensures dx == 0 && dy == 0 ==>
      (PlanOf(Wheel(dx, dy), 0, 0) == Plan([], false) && Sent(send_input, start, []) == [] && Accepted(send_input, start, []))
  {
  }

  /** A vertical delta outside `c_short` fails after the horizontal record has gone out: that
      record stays sent. */
  lemma WheelLateFailure(dx: i64, dy: i64, send_input: (nat, Input) -> u32, start: nat)
    requires dx != 0 && IsI16(dx) && !IsI16(dy)
    ensures PlanOf(Wheel(dx, dy), 0, 0) == Plan([MouseInput(MOUSEEVENTF_HWHEEL, WheelData(dx).value, 0, 0)], true)
    ensures Sent(send_input, start, PlanOf(Wheel(dx, dy), 0, 0).records)
      == [MouseInput(MOUSEEVENTF_HWHEEL, WheelData(dx).value, 0, 0)]
  {
  }

  /** An empty virtual screen makes a move fail before anything is sent. */
  lemma MoveOnEmptyScreenFails(x: real, y: real, width: i32, height: i32)
    requires width == 0 || height == 0
    ensures PlanOf(MouseMove(x, y), width, height) == Plan([], true)
  {
  }

  /** A pixel inside the virtual screen lands in the normalised range 1..65535 of absolute
      coordinates. */
  lemma AbsoluteInRange(x: int, size: i32)
    requires 0 <= x < size <= 0x7FFF
    ensures 1 <= Absolute(x as real, size) <= 65535
  {
    assert RealAsI32(x as real) == x;
    var n := (x + 1) * 65535;
    assert 65535 <= n <= 0x7FFF * 65535;
    assert n <= size * 65535;
    assert n / size <= 65535;
    assert n / size >= 1;
  }

  /** The `mouseData` the low-level mouse hook reports for a record: its low word, in the upper
      word. */
  function HookMouseData(data: u32): u32
  {
    AsU16(data) * TWO_16
  }

  /** An amount that fits, stored in the record and seen by the hook, is the decoder's wheel
      word for it. */
  lemma WheelDataWord(d: int)
    requires IsI16(d * WinCommon.WHEEL_DELTA)
    ensures IsI16(d) && WheelData(d).Some?
    ensures WinCommon.HiWord(HookMouseData(WheelData(d).value)) == WinCommon.WheelWord(d * WinCommon.WHEEL_DELTA)
  {
    var a := d * WinCommon.WHEEL_DELTA;
    var data := WheelData(d).value;
    assert data == AsU32(a);
    assert AsU16(data) == WinCommon.WheelWord(a) by {
      if a < 0 {
        assert data == TWO_32 + a;
        assert (TWO_32 + a) % TWO_16 == TWO_16 + a;
      }
    }
  }

  /** Round trip through the decoder: a wheel delta whose amount fits in a `c_short` is heard
      by the hook as the same delta, on the same axis. */
  lemma WheelRoundTrip(d: i64, x: i32, y: i32, kb: WinCommon.KbdLlHook)
    requires d != 0 && IsI16(d * WinCommon.WHEEL_DELTA)
    ensures PlanOf(Wheel(0, d), 0, 0).records == [MouseInput(MOUSEEVENTF_WHEEL, WheelData(d).value, 0, 0)]
    ensures PlanOf(Wheel(d, 0), 0, 0).records == [MouseInput(MOUSEEVENTF_HWHEEL, WheelData(d).value, 0, 0)]
    ensures WinCommon.Convert(WinCommon.WM_MOUSEWHEEL, kb, WinCommon.MsLlHook(x, y, HookMouseData(WheelData(d).value)))
      == Some(Wheel(0, d))
    ensures WinCommon.Convert(WinCommon.WM_MOUSEHWHEEL, kb, WinCommon.MsLlHook(x, y, HookMouseData(WheelData(d).value)))
      == Some(Wheel(d, 0))
  {
    WheelDataWord(d);
    WinCommon.WheelNotchesOfMultiple(d);
  }

  /** The delta 300 fits in a `c_short`, but 300 * 120 does not: the product wraps to -29536
      and the hook hears -246 notches, in the opposite direction. */
  lemma WheelOverflow(x: i32, y: i32, kb: WinCommon.KbdLlHook)
    ensures PlanOf(Wheel(0, 300), 0, 0) == Plan([MouseInput(MOUSEEVENTF_WHEEL, WheelData(300).value, 0, 0)], false)
    ensures WinCommon.Convert(WinCommon.WM_MOUSEWHEEL, kb, WinCommon.MsLlHook(x, y, HookMouseData(WheelData(300).value)))
      == Some(Wheel(0, -246))
  {
    assert AsI16(36000) == -29536;
    assert WheelData(300).value == TWO_32 - 29536;
    assert HookMouseData(WheelData(300).value) == (TWO_16 - 29536) * TWO_16;
    assert WinCommon.HiWord((TWO_16 - 29536) * TWO_16) == TWO_16 - 29536;
  }

  /** The corrected data refuses exactly the deltas whose amount does not fit, and every delta
      it accepts is heard back unchanged. */
  lemma WheelDataCheckedRoundTrip(d: int, x: i32, y: i32, kb: WinCommon.KbdLlHook)
    ensures WheelDataChecked(d).Some? <==> -273 <= d <= 273
    ensures WheelDataChecked(d).Some? ==>
      WinCommon.Convert(WinCommon.WM_MOUSEWHEEL, kb, WinCommon.MsLlHook(x, y, HookMouseData(WheelDataChecked(d).value)))
        == Some(Wheel(0, d))
  {
    if -273 <= d <= 273 {
      WheelDataWord(d);
      WinCommon.WheelNotchesOfMultiple(d);
    }
  }

  /** Round trip through the keyboard hook: a named key with a code is sent as one record
      carrying that code, and the hook hears the code back as the same key, pressed or
      released. */
  lemma KeyRoundTrip(k: Key, c: u16, width: i32, height: i32, scan: u32)
    requires !k.Unknown? && WinKeycodes.CodeFromKey(k) == Some(c)
    ensures PlanOf(KeyPress(k), width, height).records == [KeyboardInput(KEYEVENTF_KEYDOWN, c, 0)]
    ensures PlanOf(KeyRelease(k), width, height).records == [KeyboardInput(KEYEVENTF_KEYUP, c, 0)]
    ensures WinCommon.Convert(WinCommon.WM_KEYDOWN, WinCommon.KbdLlHook(c, scan), WinCommon.MsLlHook(0, 0, 0)) == Some(KeyPress(k))
    ensures WinCommon.Convert(WinCommon.WM_KEYUP, WinCommon.KbdLlHook(c, scan), WinCommon.MsLlHook(0, 0, 0)) == Some(KeyRelease(k))
  {
    PressAndReleaseShareKey(k, c, width, height);
    assert WinKeycodes.KeyFromCode(c) == k;
    assert AsU16(c) == c;
  }

  /** An X button is heard by the mouse hook as the same unknown button. */
  lemma XButtonRoundTrip(c: u8, width: i32, height: i32)
    ensures var data := PlanOf(ButtonPress(Button.Unknown(c)), width, height).records[0].data;
      WinCommon.Convert(WinCommon.WM_XBUTTONDOWN, WinCommon.KbdLlHook(0, 0), WinCommon.MsLlHook(0, 0, HookMouseData(data)))
        == Some(ButtonPress(Button.Unknown(c)))
  {
    assert WinCommon.HiWord(HookMouseData(c)) == c;
  }
}
