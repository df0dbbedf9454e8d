/** The macOS keyboard state: a Shift latch, a CapsLock toggle and the dead-key state that
    `UCKeyTranslate` threads from one key press to the next. The layout translation is an
    oracle given to the constructor. */
module MacKeyboard {
  import opened Ints
  import opened Wrappers
  import opened Rdev
  import opened Unicode
  import MacKeycodes

  /** The `NSEventModifierFlag` bits of a `CGEventFlags` word. */
  const CAPS_LOCK_FLAG: bv64 := 1 << 16
  const SHIFT_FLAG: bv64 := 1 << 17
  const CONTROL_FLAG: bv64 := 1 << 18
  const OPTION_FLAG: bv64 := 1 << 19
  const COMMAND_FLAG: bv64 := 1 << 20

  /** The modifier state of a flag word, as `UCKeyTranslate` expects it (`flags_to_state`):
      Command adds 1, CapsLock and Shift 2 each, Option 8 and Control 16. */
  function FlagsToState(flags: bv64): (r: u32)
    ensures r <= 29
    ensures r % 2 == 1 <==> flags & COMMAND_FLAG != 0
    ensures (r / 2) % 4 == (if flags & CAPS_LOCK_FLAG != 0 then 1 else 0) + (if flags & SHIFT_FLAG != 0 then 1 else 0)
    ensures (r / 8) % 2 == 1 <==> flags & OPTION_FLAG != 0
    ensures r / 16 == 1 <==> flags & CONTROL_FLAG != 0
  {
    var has_alt := flags & OPTION_FLAG;
    var has_caps_lock := flags & CAPS_LOCK_FLAG;
    var has_control := flags & CONTROL_FLAG;
    var has_shift := flags & SHIFT_FLAG;
    var has_meta := flags & COMMAND_FLAG;
    var m0 := 0;
    var m1 := if has_alt != 0 then m0 + 8 else m0;
    var m2 := if has_caps_lock != 0 then m1 + 2 else m1;
    var m3 := if has_control != 0 then m2 + 16 else m2;
    var m4 := if has_shift != 0 then m3 + 2 else m3;
    if has_meta != 0 then m4 + 1 else m4
  }

  /** Only bits 16 to 20 of the flag word matter. */
  lemma FlagsToStateUsesBits16To20(flags: bv64)
    ensures FlagsToState(flags) == FlagsToState(flags & 0x1F_0000)
  {
  }

  /** CapsLock and Shift together count twice. */
  lemma CapsLockAndShift()
    ensures FlagsToState(CAPS_LOCK_FLAG | SHIFT_FLAG) == 4
    ensures FlagsToState(CAPS_LOCK_FLAG | SHIFT_FLAG | CONTROL_FLAG | OPTION_FLAG | COMMAND_FLAG) == 29
  {
  }

  /** The number of UTF-16 units `string_from_code`'s buffer holds, passed to
      `UCKeyTranslate` as the longest string it may write. */
  const BUF_LEN: nat := 4

  /** The units `UCKeyTranslate` writes: no more than the buffer holds. */
  type Units = u: seq<u16> | |u| <= BUF_LEN

  /** What `UCKeyTranslate` produces: the new dead-key state and the UTF-16 units it wrote. */
  datatype Translation = Translation(dead_state: u32, units: Units)

  /** The keys that `add` handles as modifiers. */
  predicate IsShift(k: Key) { k.ShiftLeft? || k.ShiftRight? }

  /** `modifier_state`: 2 when Shift or CapsLock is on. */
  function ModifierState(shift: bool, caps_lock: bool): (r: u32)
    ensures r == 2 <==> shift || caps_lock
    ensures r == 0 <==> !shift && !caps_lock
  {
    if caps_lock || shift then 2 else 0
  }

  /** The Shift latch after `add`. */
  function ShiftAfter(shift: bool, e: EventType): (r: bool)
    ensures e.KeyPress? && IsShift(e.key) ==> r
    ensures e.KeyRelease? && IsShift(e.key) ==> !r
    ensures !((e.KeyPress? || e.KeyRelease?) && IsShift(e.key)) ==> r == shift
  {
    match e
    case KeyPress(k) => if IsShift(k) then true else shift
    case KeyRelease(k) => if IsShift(k) then false else shift
    case _ => shift
  }

  /** The CapsLock toggle after `add`: only a CapsLock press flips it. */
  function CapsLockAfter(caps_lock: bool, e: EventType): (r: bool)
    ensures r != caps_lock <==> e == KeyPress(CapsLock)
  {
    match e
    case KeyPress(k) => if k.CapsLock? then !caps_lock else caps_lock
    case _ => caps_lock
  }

  /** The keycode `add` translates, if any: a press of a key other than the modifiers that
      has a macOS keycode. */
  function AddLookupCode(e: EventType): (r: Option<u32>)
    ensures r.Some? ==> e.KeyPress? && !IsShift(e.key) && !e.key.CapsLock?
    ensures r.Some? ==> MacKeycodes.CodeFromKey(e.key) == r
    ensures e.KeyPress? && !IsShift(e.key) && !e.key.CapsLock? && MacKeycodes.CodeFromKey(e.key).Some? ==> r.Some?
    ensures e.KeyPress? && !IsShift(e.key) && !e.key.CapsLock? && e.key.Unknown? ==> r == Some(e.key.code)
  {
    match e
    case KeyPress(k) =>
      if IsShift(k) || k.CapsLock? then None
      else
        MacKeycodes.UnknownCode(if k.Unknown? then k.code else 0);
        MacKeycodes.CodeFromKey(k)
    case _ => None
  }

  class Keyboard {
    var dead_state: u32
    var shift: bool
    var caps_lock: bool
    /** The layout translation, given the keycode, the modifier state and the dead-key
        state; `None` when no Unicode layout is available. */
    const translate: (u16, u32, u32) -> Option<Translation>

    /** `Keyboard::new`. */
    constructor(translate: (u16, u32, u32) -> Option<Translation>)
      ensures dead_state == 0 && !shift && !caps_lock && this.translate == translate
    {
      dead_state := 0;
      shift := false;
      caps_lock := false;
      this.translate := translate;
    }

    /** `string_from_code`: a code beyond 16 bits or a missing layout gives no text and
        leaves the dead-key state alone; otherwise the translation updates it and its
        units are decoded as UTF-16. */
    method StringFromCode(code: u32, modifier: u32) returns (name: Option<string>)
      modifies this
      ensures shift == old(shift) && caps_lock == old(caps_lock)
      ensures code >= TWO_16 ==> name.None? && dead_state == old(dead_state)
      ensures code < TWO_16 && translate(code, modifier, old(dead_state)).None? ==>
        name.None? && dead_state == old(dead_state)
      ensures code < TWO_16 && translate(code, modifier, old(dead_state)).Some? ==>
        var t := translate(code, modifier, old(dead_state)).value;
        dead_state == t.dead_state && name == Utf16Decode(t.units)
    ensures name.Some? ==> |Utf16Encode(name.value)| <= BUF_LEN
    {
      if code >= TWO_16 {
        return None;
      }
      var t := translate(code, modifier, dead_state);
      if t.None? {
        return None;
      }
      dead_state := t.value.dead_state;
      name := Utf16Decode(t.value.units);
    }

    /** `KeyboardState::add`. */
    method Add(e: EventType) returns (name: Option<string>)
      modifies this
      ensures shift == ShiftAfter(old(shift), e) && caps_lock == CapsLockAfter(old(caps_lock), e)
      ensures AddLookupCode(e).None? ==> name.None? && dead_state == old(dead_state)
      ensures AddLookupCode(e).Some? ==>
        var code := AddLookupCode(e).value;
        var m := ModifierState(old(shift), old(caps_lock));
        if code >= TWO_16 || translate(code, m, old(dead_state)).None? then
          name.None? && dead_state == old(dead_state)
        else
          var t := translate(code, m, old(dead_state)).value;
          dead_state == t.dead_state && name == Utf16Decode(t.units)
    {
      match e
      case KeyPress(k) =>
        if IsShift(k) {
          shift := true;
          name := None;
        } else if k.CapsLock? {
          caps_lock := !caps_lock;
          name := None;
        } else {
          var code := MacKeycodes.CodeFromKey(k);
          if code.None? {
            name := None;
          } else {
            name := StringFromCode(code.value, ModifierState(shift, caps_lock));
          }
        }
      case KeyRelease(k) =>
        if IsShift(k) {
          shift := false;
        }
        name := None;
      case _ =>
        name := None;
    }

    /** `KeyboardState::reset`: back to the state of `new`. */
    method Reset()
      modifies this
      ensures dead_state == 0 && !shift && !caps_lock
    {
      dead_state := 0;
      shift := false;
      caps_lock := false;
    }
  }

  /** Two CapsLock presses restore the toggle; a CapsLock release leaves it alone. */
  lemma CapsLockTwice(caps_lock: bool)
    ensures CapsLockAfter(CapsLockAfter(caps_lock, KeyPress(CapsLock)), KeyPress(CapsLock)) == caps_lock
    ensures CapsLockAfter(caps_lock, KeyRelease(CapsLock)) == caps_lock
  {
  }

  /** A key other than the modifiers with no macOS keycode is not translated; the latches
      keep their values. */
  lemma UnmappedKeyIsIgnored(shift: bool, caps_lock: bool, k: Key)
    requires MacKeycodes.Unmapped(k)
    ensures AddLookupCode(KeyPress(k)).None?
    ensures ShiftAfter(shift, KeyPress(k)) == shift && CapsLockAfter(caps_lock, KeyPress(k)) == caps_lock
  {
    MacKeycodes.UnmappedHasNoCode(k);
  }

  /** Events other than key presses and releases are not translated and change nothing. */
  lemma NonKeyEventsAreIgnored(shift: bool, caps_lock: bool, e: EventType)
    requires !e.KeyPress? && !e.KeyRelease?
    ensures AddLookupCode(e).None? && ShiftAfter(shift, e) == shift && CapsLockAfter(caps_lock, e) == caps_lock
  {
  }
}
