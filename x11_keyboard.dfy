/** The X11 keyboard state of the Linux backend: a modifier latch that turns key presses
    into the text the current layout produces. The layout lookup (`Xutf8LookupString`) is
    an oracle given to the constructor. */
module X11Keyboard {
  import opened Ints
  import opened Wrappers
  import opened Rdev
  import opened Unicode
  import X11Keycodes

  /** The X11 modifier masks of `X.h`. */
  const SHIFT_MASK: u32 := 1
  const LOCK_MASK: u32 := 2
  const CONTROL_MASK: u32 := 4
  const MOD1_MASK: u32 := 8
  const MOD4_MASK: u32 := 64

  /** `NoSymbol`, the failure result of the lookup. */
  const NO_SYMBOL: int := 0

  /** The size of the lookup buffer. */
  const BUF_LEN: nat := 4

  datatype State = State(alt: bool, ctrl: bool, caps_lock: bool, shift: bool, meta: bool)

  /** `State::new`. */
  function NewState(): (s: State)
    ensures !s.alt && !s.ctrl && !s.caps_lock && !s.shift && !s.meta
  {
    State(false, false, false, false, false)
  }

  /** `State::value`: the masks of the set flags added into an accumulator. */
  function Value(s: State): (r: u32)
    ensures r < 0x80
    ensures r % 2 == 1 <==> s.shift
    ensures (r / 2) % 2 == 1 <==> s.caps_lock
    ensures (r / 4) % 2 == 1 <==> s.ctrl
    ensures (r / 8) % 2 == 1 <==> s.alt
    ensures (r / 64) % 2 == 1 <==> s.meta
    ensures (r / 16) % 4 == 0
  {
    var r0 := 0;
    var r1 := if s.alt then r0 + MOD1_MASK else r0;
    var r2 := if s.ctrl then r1 + CONTROL_MASK else r1;
    var r3 := if s.caps_lock then r2 + LOCK_MASK else r2;
    var r4 := if s.meta then r3 + MOD4_MASK else r3;
    if s.shift then r4 + SHIFT_MASK else r4
  }

  function Bit(b: bool, mask: bv32): bv32 { if b then mask else 0 }

  /** The masks are distinct single bits, so adding them up is the same as OR-ing them. */
  lemma ValueIsBitwiseOr(s: State)
    ensures Value(s) as bv32
      == Bit(s.alt, MOD1_MASK as bv32) | Bit(s.ctrl, CONTROL_MASK as bv32) | Bit(s.caps_lock, LOCK_MASK as bv32)
         | Bit(s.meta, MOD4_MASK as bv32) | Bit(s.shift, SHIFT_MASK as bv32)
  {
  }

  /** The bytes of `buf` before its first zero byte (all of them when it has none). */
  function UpToZero(buf: seq<u8>): (r: seq<u8>)
    ensures r <= buf
    ensures forall i :: 0 <= i < |r| ==> r[i] != 0
    ensures |r| < |buf| ==> buf[|r|] == 0
  {
    if buf == [] || buf[0] == 0 then [] else [buf[0]] + UpToZero(buf[1..])
  }

  /** The fixed-size buffer `name_from_code` hands to the lookup. */
  type Buffer = b: seq<u8> | |b| == BUF_LEN witness [0, 0, 0, 0]

  /** What `Xutf8LookupString` reports: its return value and the buffer it filled. */
  datatype Lookup = Lookup(ret: int, buf: Buffer)

  /** The end of `name_from_code`: no text on `NoSymbol`, otherwise the buffer up to its
      first zero, if that is valid UTF-8. */
  function NameOfLookup(l: Lookup): (r: Option<string>)
    ensures l.ret == NO_SYMBOL ==> r.None?
    ensures r.Some? ==> Utf8Encode(r.value) == UpToZero(l.buf)
    ensures r.Some? ==> |Utf8Encode(r.value)| <= BUF_LEN
  {
    if l.ret == NO_SYMBOL then None else Utf8Decode(UpToZero(l.buf))
  }

  /** A buffer holding the encoding of some text, then zero padding. */
  predicate NoZero(b: seq<u8>) { forall i :: 0 <= i < |b| ==> b[i] != 0 }

  lemma {:induction false} UpToZeroOfPadded(e: seq<u8>, pad: seq<u8>)
    requires NoZero(e)
    requires pad == [] || pad[0] == 0
    ensures UpToZero(e + pad) == e
  {
    if e != [] {
      assert (e + pad)[1..] == e[1..] + pad;
      UpToZeroOfPadded(e[1..], pad);
    } else {
      assert e + pad == pad;
    }
  }

  /** A text whose encoding has no zero byte comes back whole from a zero-padded buffer. */
  lemma NameOfPaddedText(t: string, ret: int, pad: seq<u8>)
    requires ret != NO_SYMBOL
    requires NoZero(Utf8Encode(t)) && (pad == [] || pad[0] == 0)
    requires |Utf8Encode(t)| + |pad| == BUF_LEN
    ensures NameOfLookup(Lookup(ret, Utf8Encode(t) + pad)) == Some(t)
  {
    UpToZeroOfPadded(Utf8Encode(t), pad);
    Utf8RoundTrip(t);
  }

  /** The keys that `add` handles as modifiers. */
  predicate IsShift(k: Key) { k.ShiftLeft? || k.ShiftRight? }

  /** The state after `add`. */
  function AddState(s: State, e: EventType): (r: State)
    ensures r.alt == s.alt && r.ctrl == s.ctrl && r.meta == s.meta
  {
    match e
    case KeyPress(k) =>
      if IsShift(k) then s.(shift := true)
      else if k.CapsLock? then s.(caps_lock := !s.caps_lock)
      else s
    case KeyRelease(k) =>
      if IsShift(k) then s.(shift := false) else s
    case _ => s
  }

  /** The keycode `add` looks up, if any: a press of a key other than the modifiers that has
      an X11 keycode. */
  function AddLookupCode(e: EventType): (r: Option<u32>)
    ensures r.Some? ==> e.KeyPress? && !IsShift(e.key) && !e.key.CapsLock?
    ensures r.Some? ==> X11Keycodes.CodeFromKey(e.key) == r
    ensures e.KeyPress? && !IsShift(e.key) && !e.key.CapsLock? && X11Keycodes.CodeFromKey(e.key).Some? ==> r.Some?
  {
    match e
    case KeyPress(k) =>
      if IsShift(k) || k.CapsLock? then None else X11Keycodes.CodeFromKey(k)
    case _ => None
  }

  class Keyboard {
    var state: State
    var serial: nat
    /** The layout lookup, given the keycode, the modifier state and the serial number. */
    const lookup: (u32, u32, nat) -> Lookup

    /** `Keyboard::new` once the display and input context are open. */
    constructor(lookup: (u32, u32, nat) -> Lookup)
      ensures state == NewState() && serial == 0 && this.lookup == lookup
    {
      state := NewState();
      serial := 0;
      this.lookup := lookup;
    }

    /** `name_from_code`: one lookup, which bumps the serial number. */
    method NameFromCode(keycode: u32, st: u32) returns (name: Option<string>)
      modifies this
      ensures serial == old(serial) + 1 && state == old(state)
      ensures name == NameOfLookup(lookup(keycode, st, old(serial)))
      ensures name.Some? ==> |Utf8Encode(name.value)| <= BUF_LEN
    {
      var l := lookup(keycode, st, serial);
      serial := serial + 1;
      name := NameOfLookup(l);
    }

    /** `KeyboardState::add`. */
    method Add(e: EventType) returns (name: Option<string>)
      modifies this
      ensures state == AddState(old(state), e)
      ensures AddLookupCode(e).None? ==> name.None? && serial == old(serial)
      ensures AddLookupCode(e).Some? ==>
        serial == old(serial) + 1
        && name == NameOfLookup(lookup(AddLookupCode(e).value, Value(old(state)), old(serial)))
    {
      match e
      case KeyPress(k) =>
        if IsShift(k) {
          state := state.(shift := true);
          name := None;
        } else if k.CapsLock? {
          state := state.(caps_lock := !state.caps_lock);
          name := None;
        } else {
          var code := X11Keycodes.CodeFromKey(k);
          if code.None? {
            name := None;
          } else {
            name := NameFromCode(code.value, Value(state));
          }
        }
      case KeyRelease(k) =>
        if IsShift(k) {
          state := state.(shift := false);
        }
        name := None;
      case _ =>
        name := None;
    }

    /** `KeyboardState::reset`. */
    method Reset()
      modifies this
      ensures state == NewState() && serial == old(serial)
    {
      state := NewState();
    }
  }

  /** A Shift press sets the latch and a Shift release clears it; neither looks anything up. */
  lemma ShiftLatch(s: State, k: Key)
    requires IsShift(k)
    ensures AddState(s, KeyPress(k)).shift && !AddState(s, KeyRelease(k)).shift
    ensures AddState(s, KeyPress(k)) == s.(shift := true)
    ensures AddState(s, KeyRelease(k)) == s.(shift := false)
    ensures AddLookupCode(KeyPress(k)).None? && AddLookupCode(KeyRelease(k)).None?
  {
  }

  /** CapsLock presses toggle the lock, so two of them restore the state; a release does nothing. */
  lemma CapsLockToggles(s: State)
    ensures AddState(s, KeyPress(CapsLock)).caps_lock == !s.caps_lock
    ensures AddState(AddState(s, KeyPress(CapsLock)), KeyPress(CapsLock)) == s
    ensures AddState(s, KeyRelease(CapsLock)) == s
  {
  }

  /** Starting from `new`, any sequence of events leaves Alt, Control and Meta unset, so the
      modifier value only ever holds the Shift and Lock bits. */
  function AddAll(s: State, es: seq<EventType>): State
    decreases |es|
  {
    if es == [] then s else AddAll(AddState(s, es[0]), es[1..])
  }

  lemma {:induction false} OnlyShiftAndLock(s: State, es: seq<EventType>)
    requires !s.alt && !s.ctrl && !s.meta
    ensures var r := AddAll(s, es); !r.alt && !r.ctrl && !r.meta
    ensures Value(AddAll(s, es)) == (if AddAll(s, es).caps_lock then LOCK_MASK else 0) + (if AddAll(s, es).shift then SHIFT_MASK else 0)
    decreases |es|
  {
    if es != [] {
      OnlyShiftAndLock(AddState(s, es[0]), es[1..]);
    }
  }

  /** A key other than the modifiers with no X11 keycode gives no name and leaves the state alone. */
  lemma UnmappedKeyIsIgnored(s: State, k: Key)
    requires X11Keycodes.Unmapped(k)
    ensures AddLookupCode(KeyPress(k)).None? && AddState(s, KeyPress(k)) == s
  {
    X11Keycodes.UnmappedHasNoCode(k);
  }

  /** Releases of other keys and events that are not key events change nothing. */
  lemma OtherEventsAreIgnored(s: State, e: EventType)
    requires !e.KeyPress? && !(e.KeyRelease? && IsShift(e.key))
    ensures AddState(s, e) == s && AddLookupCode(e).None?
  {
  }
}
