/** The Win32 event decoder: a window message and the hook structure it comes with become an
    `EventType`, plus the slot that remembers the installed hook. */
module WinCommon {
  import opened Ints
  import opened Wrappers
  import opened Rdev
  import WinKeycodes

  /** The window messages of `winuser.h`. */
  const WM_KEYDOWN: int := 0x100
  const WM_KEYUP: int := 0x101
  const WM_SYSKEYDOWN: int := 0x104
  const WM_SYSKEYUP: int := 0x105
  const WM_MOUSEMOVE: int := 0x200
  const WM_LBUTTONDOWN: int := 0x201
  const WM_LBUTTONUP: int := 0x202
  const WM_RBUTTONDOWN: int := 0x204
  const WM_RBUTTONUP: int := 0x205
  const WM_MBUTTONDOWN: int := 0x207
  const WM_MBUTTONUP: int := 0x208
  const WM_MOUSEWHEEL: int := 0x20A
  const WM_XBUTTONDOWN: int := 0x20B
  const WM_XBUTTONUP: int := 0x20C
  const WM_MOUSEHWHEEL: int := 0x20E

  /** One wheel notch. */
  const WHEEL_DELTA: int := 120

  /** The fields of `KBDLLHOOKSTRUCT` that are read. */
  datatype KbdLlHook = KbdLlHook(vk_code: u32, scan_code: u32)

  /** The fields of `MSLLHOOKSTRUCT` that are read. */
  datatype MsLlHook = MsLlHook(x: i32, y: i32, mouse_data: u32)

  /** `HIWORD`: the upper 16 bits of a 32-bit word. */
  function HiWord(w: u32): (r: u16)
    ensures w == r * TWO_16 + w % TWO_16
  {
    w / TWO_16
  }

  /** `get_code`. */
  function GetCode(kb: KbdLlHook): u32 { kb.vk_code }

  /** `get_scan_code`. */
  function GetScanCode(kb: KbdLlHook): u32 { kb.scan_code }

  /** `get_delta` and `get_button_code`: both are the upper word of `mouseData`. */
  function GetDelta(ms: MsLlHook): (r: u16)
    ensures r == HiWord(ms.mouse_data)
  {
    HiWord(ms.mouse_data)
  }

  /** The wheel notches of a raw wheel word: reinterpreted as `i16`, then divided by
      `WHEEL_DELTA` with truncation toward zero. */
  function WheelNotches(w: u16): (r: int)
    ensures -273 <= r <= 273
    ensures r > 0 ==> AsI16(w) >= WHEEL_DELTA
    ensures r < 0 ==> AsI16(w) <= -WHEEL_DELTA
    ensures r == 0 <==> -WHEEL_DELTA < AsI16(w) < WHEEL_DELTA
    ensures Abs(r) * WHEEL_DELTA <= Abs(AsI16(w)) < (Abs(r) + 1) * WHEEL_DELTA
  {
    Quot(AsI16(w), WHEEL_DELTA)
  }

  /** `convert`: `lpdata` is read as the keyboard structure for key messages and as the mouse
      structure for mouse messages; a message that is not handled gives `None`. */
  function Convert(param: u64, kb: KbdLlHook, ms: MsLlHook): (r: Option<EventType>)
    ensures param == WM_KEYDOWN || param == WM_SYSKEYDOWN ==> r == Some(KeyPress(WinKeycodes.KeyFromCode(AsU16(kb.vk_code))))
    ensures param == WM_KEYUP || param == WM_SYSKEYUP ==> r == Some(KeyRelease(WinKeycodes.KeyFromCode(AsU16(kb.vk_code))))
    ensures r.Some? && (r.value.KeyPress? || r.value.KeyRelease?) ==>
      WinKeycodes.CodeFromKey(r.value.key) == Some(kb.vk_code % TWO_16)
    ensures r.Some? && (r.value.ButtonPress? || r.value.ButtonRelease?) ==>
      (r.value.button == Left <==> param == WM_LBUTTONDOWN || param == WM_LBUTTONUP)
      && (r.value.button == Right <==> param == WM_RBUTTONDOWN || param == WM_RBUTTONUP)
      && (r.value.button == Middle <==> param == WM_MBUTTONDOWN || param == WM_MBUTTONUP)
      && (r.value.button.Unknown? <==> param == WM_XBUTTONDOWN || param == WM_XBUTTONUP)
      && (r.value.button.Unknown? ==> r.value.button.code == GetDelta(ms) % TWO_8)
    ensures r.Some? && r.value.ButtonPress? <==>
      param in {WM_LBUTTONDOWN, WM_RBUTTONDOWN, WM_MBUTTONDOWN, WM_XBUTTONDOWN}
    ensures r.Some? && r.value.ButtonRelease? <==>
      param in {WM_LBUTTONUP, WM_RBUTTONUP, WM_MBUTTONUP, WM_XBUTTONUP}
    ensures param == WM_MOUSEMOVE ==> r == Some(MouseMove(ms.x as real, ms.y as real))
    ensures param == WM_MOUSEWHEEL ==> r == Some(Wheel(0, WheelNotches(GetDelta(ms))))
    ensures param == WM_MOUSEHWHEEL ==> r == Some(Wheel(WheelNotches(GetDelta(ms)), 0))
    ensures r.None? <==> param !in {WM_KEYDOWN, WM_KEYUP, WM_SYSKEYDOWN, WM_SYSKEYUP, WM_MOUSEMOVE,
      WM_LBUTTONDOWN, WM_LBUTTONUP, WM_RBUTTONDOWN, WM_RBUTTONUP, WM_MBUTTONDOWN, WM_MBUTTONUP,
      WM_MOUSEWHEEL, WM_XBUTTONDOWN, WM_XBUTTONUP, WM_MOUSEHWHEEL}
  {
    if param == WM_KEYDOWN || param == WM_SYSKEYDOWN then
      WinKeycodes.CodeRoundTrip(AsU16(GetCode(kb)));
      Some(KeyPress(WinKeycodes.KeyFromCode(AsU16(GetCode(kb)))))
    else if param == WM_KEYUP || param == WM_SYSKEYUP then
      WinKeycodes.CodeRoundTrip(AsU16(GetCode(kb)));
      Some(KeyRelease(WinKeycodes.KeyFromCode(AsU16(GetCode(kb)))))
    else if param == WM_LBUTTONDOWN then Some(ButtonPress(Left))
    else if param == WM_LBUTTONUP then Some(ButtonRelease(Left))
    else if param == WM_MBUTTONDOWN then Some(ButtonPress(Middle))
    else if param == WM_MBUTTONUP then Some(ButtonRelease(Middle))
    else if param == WM_RBUTTONDOWN then Some(ButtonPress(Right))
    else if param == WM_RBUTTONUP then Some(ButtonRelease(Right))
    else if param == WM_XBUTTONDOWN then Some(ButtonPress(Button.Unknown(AsU8(GetDelta(ms)))))
    else if param == WM_XBUTTONUP then Some(ButtonRelease(Button.Unknown(AsU8(GetDelta(ms)))))
    else if param == WM_MOUSEMOVE then Some(MouseMove(ms.x as real, ms.y as real))
    else if param == WM_MOUSEWHEEL then Some(Wheel(0, WheelNotches(GetDelta(ms))))
    else if param == WM_MOUSEHWHEEL then Some(Wheel(WheelNotches(GetDelta(ms)), 0))
    else None
  }

  /** The raw wheel word of a signed amount, as the sender stores it in `mouseData`'s upper word. */
  function WheelWord(amount: i16): (w: u16)
    ensures AsI16(w) == amount
  {
    if amount < 0 then amount + TWO_16 else amount
  }

  /** Whole notches survive the decoding: an amount of `n * WHEEL_DELTA` decodes to `n`. */
  lemma WheelNotchesOfMultiple(n: int)
    requires IsI16(n * WHEEL_DELTA)
    ensures WheelNotches(WheelWord(n * WHEEL_DELTA)) == n
  {
    if n < 0 {
      assert (-(n * WHEEL_DELTA)) / WHEEL_DELTA == -n;
    }
  }

  /** The errors of the hook setters, with the code of `GetLastError`. */
  datatype HookError = Mouse(code: u32) | Key(code: u32)

  /** The handle of the installed hook (`HOOK`); 0 is the null handle. */
  class HookSlot {
    var hook: nat

    constructor()
      ensures hook == 0
    {
      hook := 0;
    }

    /** `set_key_hook`, given what `SetWindowsHookExA` and `GetLastError` returned. */
    method SetKeyHook(handle: nat, last_error: u32) returns (r: Result<(), HookError>)
      modifies this
      ensures handle == 0 ==> r == Err(Key(last_error)) && hook == old(hook)
      ensures handle != 0 ==> r == Ok(()) && hook == handle
    {
      if handle == 0 {
        return Err(Key(last_error));
      }
      hook := handle;
      r := Ok(());
    }

    /** `set_mouse_hook`, given what `SetWindowsHookExA` and `GetLastError` returned. */
    method SetMouseHook(handle: nat, last_error: u32) returns (r: Result<(), HookError>)
      modifies this
      ensures handle == 0 ==> r == Err(Mouse(last_error)) && hook == old(hook)
      ensures handle != 0 ==> r == Ok(()) && hook == handle
    {
      if handle == 0 {
        return Err(Mouse(last_error));
      }
      hook := handle;
      r := Ok(());
    }
  }
}
