/** The macOS event decoder: a `CGEventType` and the fields of its `CGEvent` become an
    `EventType`. Modifier keys arrive as `FlagsChanged` events, and whether one is a press or a
    release is read off the flag word remembered from the last one (`LAST_FLAGS`). */
module MacCommon {
  import opened Ints
  import opened Wrappers
  import opened Rdev
  import MacKeycodes
  import MacKeyboard
  import Unicode

  /** The modifier bits of `CGEventFlags`. */
  const FLAG_ALPHA_SHIFT: bv64 := 0x1_0000
  const FLAG_SHIFT: bv64 := 0x2_0000
  const FLAG_CONTROL: bv64 := 0x4_0000
  const FLAG_ALTERNATE: bv64 := 0x8_0000
  const FLAG_COMMAND: bv64 := 0x10_0000

  /** The four modifiers `FlagsChanged` looks at, in the order it looks at them. */
  const WATCHED: bv64 := FLAG_SHIFT | FLAG_CONTROL | FLAG_ALTERNATE | FLAG_COMMAND

  /** The event types the decoder handles; every other type is `OtherType`. */
  datatype CGEventType =
    | LeftMouseDown | LeftMouseUp | RightMouseDown | RightMouseUp
    | MouseMoved | LeftMouseDragged | RightMouseDragged
    | KeyDown | KeyUp | FlagsChanged | ScrollWheel | OtherType

  /** The fields of a `CGEvent` that are read: its location, the keycode field, the flags and
      the two point-delta scroll axes. */
  datatype CGEvent = CGEvent(x: real, y: real, keycode: i64, flags: bv64, axis_1: i64, axis_2: i64)

  function Has(flags: bv64, bit: bv64): bool { flags & bit != 0 }

  /** Whether `bit` is set in one word and clear in the other. */
  predicate Differs(flags: bv64, last: bv64, bit: bv64) { Has(flags, bit) != Has(last, bit) }

  /** The `FlagsChanged` decision: the first of Shift, Control, Alternate and Command whose
      bit differs from the remembered word decides; a newly set bit is a press (`true`), a
      newly cleared one a release (`false`); when none differs there is no event. */
  function FlagsDecision(flags: bv64, last: bv64): (r: Option<bool>)
    ensures r.None? <==> flags & WATCHED == last & WATCHED
    ensures Differs(flags, last, FLAG_SHIFT) ==> r == Some(Has(flags, FLAG_SHIFT))
    ensures !Differs(flags, last, FLAG_SHIFT) && Differs(flags, last, FLAG_CONTROL) ==>
      r == Some(Has(flags, FLAG_CONTROL))
    ensures (!Differs(flags, last, FLAG_SHIFT) && !Differs(flags, last, FLAG_CONTROL)
             && Differs(flags, last, FLAG_ALTERNATE)) ==> r == Some(Has(flags, FLAG_ALTERNATE))
    ensures (!Differs(flags, last, FLAG_SHIFT) && !Differs(flags, last, FLAG_CONTROL)
             && !Differs(flags, last, FLAG_ALTERNATE) && Differs(flags, last, FLAG_COMMAND)) ==>
      r == Some(Has(flags, FLAG_COMMAND))
  {
    if Has(flags, FLAG_SHIFT) && !Has(last, FLAG_SHIFT) then Some(true)
    else if !Has(flags, FLAG_SHIFT) && Has(last, FLAG_SHIFT) then Some(false)
    else if Has(flags, FLAG_CONTROL) && !Has(last, FLAG_CONTROL) then Some(true)
    else if !Has(flags, FLAG_CONTROL) && Has(last, FLAG_CONTROL) then Some(false)
    else if Has(flags, FLAG_ALTERNATE) && !Has(last, FLAG_ALTERNATE) then Some(true)
    else if !Has(flags, FLAG_ALTERNATE) && Has(last, FLAG_ALTERNATE) then Some(false)
    else if Has(flags, FLAG_COMMAND) && !Has(last, FLAG_COMMAND) then Some(true)
    else if !Has(flags, FLAG_COMMAND) && Has(last, FLAG_COMMAND) then Some(false)
    else None
  }

  /** Repeating the remembered flags yields nothing, and so does a change of CapsLock
      (or of any other bit) alone. */
  lemma FlagsDecisionIgnoresOtherBits(flags: bv64, last: bv64)
    ensures FlagsDecision(flags, flags).None?
    ensures flags & WATCHED == last & WATCHED ==> FlagsDecision(flags, last).None?
    ensures FlagsDecision(flags ^ FLAG_ALPHA_SHIFT, flags).None?
  {
  }

  /** A press of a modifier followed by its release: pressing Shift from an empty word is a
      press, and clearing it again from the word that press stored is a release. */
  lemma ShiftPressThenRelease(last: bv64)
    requires last & WATCHED == 0
    ensures FlagsDecision(last | FLAG_SHIFT, last) == Some(true)
    ensures FlagsDecision(last, last | FLAG_SHIFT) == Some(false)
  {
  }

  /** What the event-type match produces: the event, and the remembered flag word after it. */
  datatype Decoded = Decoded(event_type: Option<EventType>, last_flags: bv64)

  /** The event-type match of `convert`. */
  function ConvertType(t: CGEventType, ev: CGEvent, last: bv64): (r: Decoded)
    ensures r.last_flags != last ==> t == FlagsChanged && r.event_type.Some? && r.last_flags == ev.flags
    ensures t == FlagsChanged && r.event_type.Some? ==> r.last_flags == ev.flags
    ensures t == FlagsChanged ==>
      (r.event_type.None? <==> !IsU32(ev.keycode) || FlagsDecision(ev.flags, last).None?)
      && (r.event_type.Some? ==>
            r.event_type.value == (if FlagsDecision(ev.flags, last).value then KeyPress(MacKeycodes.KeyFromCode(ev.keycode))
                                  else KeyRelease(MacKeycodes.KeyFromCode(ev.keycode))))
    ensures t == KeyDown || t == KeyUp ==>
      (r.event_type.None? <==> !IsU32(ev.keycode))
      && (r.event_type.Some? ==>
            r.event_type.value == (if t == KeyDown then KeyPress(MacKeycodes.KeyFromCode(ev.keycode))
                                  else KeyRelease(MacKeycodes.KeyFromCode(ev.keycode))))
    ensures r.event_type.Some? && (r.event_type.value.KeyPress? || r.event_type.value.KeyRelease?) ==>
      MacKeycodes.CodeFromKey(r.event_type.value.key) == Some(ev.keycode)
    ensures t in {LeftMouseDown, LeftMouseUp, RightMouseDown, RightMouseUp} ==>
      r.event_type == Some(
        if t == LeftMouseDown then ButtonPress(Left) else if t == LeftMouseUp then ButtonRelease(Left)
        else if t == RightMouseDown then ButtonPress(Right) else ButtonRelease(Right))
    ensures t in {MouseMoved, LeftMouseDragged, RightMouseDragged} ==> r.event_type == Some(MouseMove(ev.x, ev.y))
    ensures t == ScrollWheel ==> r.event_type == Some(Wheel(ev.axis_2, ev.axis_1))
    ensures t == OtherType ==> r.event_type.None?
  {
    match t
    case LeftMouseDown => Decoded(Some(ButtonPress(Left)), last)
    case LeftMouseUp => Decoded(Some(ButtonRelease(Left)), last)
    case RightMouseDown => Decoded(Some(ButtonPress(Right)), last)
    case RightMouseUp => Decoded(Some(ButtonRelease(Right)), last)
    case MouseMoved => Decoded(Some(MouseMove(ev.x, ev.y)), last)
    case LeftMouseDragged => Decoded(Some(MouseMove(ev.x, ev.y)), last)
    case RightMouseDragged => Decoded(Some(MouseMove(ev.x, ev.y)), last)
    case KeyDown =>
      if !IsU32(ev.keycode) then Decoded(None, last)
      else
        MacKeycodes.CodeRoundTrip(ev.keycode);
        Decoded(Some(KeyPress(MacKeycodes.KeyFromCode(ev.keycode))), last)
    case KeyUp =>
      if !IsU32(ev.keycode) then Decoded(None, last)
      else
        MacKeycodes.CodeRoundTrip(ev.keycode);
        Decoded(Some(KeyRelease(MacKeycodes.KeyFromCode(ev.keycode))), last)
    case FlagsChanged =>
      if !IsU32(ev.keycode) then Decoded(None, last)
      else
        MacKeycodes.CodeRoundTrip(ev.keycode);
        var key := MacKeycodes.KeyFromCode(ev.keycode);
        var decision := FlagsDecision(ev.flags, last);
        if decision.None? then Decoded(None, last)
        else Decoded(Some(if decision.value then KeyPress(key) else KeyRelease(key)), ev.flags)
    case ScrollWheel => Decoded(Some(Wheel(ev.axis_2, ev.axis_1)), last)
    case OtherType => Decoded(None, last)
  }

  /** After a `FlagsChanged` event that produced a key event, the same flags again produce
      nothing. */
  lemma FlagsChangedRepeatIsNone(ev: CGEvent, last: bv64)
    requires ConvertType(FlagsChanged, ev, last).event_type.Some?
    ensures ConvertType(FlagsChanged, ev, ConvertType(FlagsChanged, ev, last).last_flags).event_type.None?
  {
    FlagsDecisionIgnoresOtherBits(ev.flags, ev.flags);
  }

  /** The remembered flag word (`LAST_FLAGS`), null at start. */
  class FlagsSlot {
    var last_flags: bv64

    constructor()
      ensures last_flags == 0
    {
      last_flags := 0;
    }

    /** `convert`: decode the event type, then name a key press with the keyboard state,
        translating the keycode field (truncated to 32 bits) under the event's flags. */
    method Convert(t: CGEventType, ev: CGEvent, kb: MacKeyboard.Keyboard) returns (r: Option<Event>)
      modifies this, kb
      ensures last_flags == ConvertType(t, ev, old(last_flags)).last_flags
      ensures var d := ConvertType(t, ev, old(last_flags)).event_type;
        (r.None? <==> d.None?) && (r.Some? ==> r.value.event_type == d.value)
      ensures kb.shift == old(kb.shift) && kb.caps_lock == old(kb.caps_lock)
      ensures r.Some? && !r.value.event_type.KeyPress? ==>
        r.value.name.None? && kb.dead_state == old(kb.dead_state)
      ensures r.None? ==> kb.dead_state == old(kb.dead_state)
      ensures r.Some? && r.value.event_type.KeyPress? ==>
        var code := AsU32(ev.keycode);
        var m := MacKeyboard.FlagsToState(ev.flags);
        if code >= TWO_16 || kb.translate(code, m, old(kb.dead_state)).None? then
          r.value.name.None? && kb.dead_state == old(kb.dead_state)
        else
          var tr := kb.translate(code, m, old(kb.dead_state)).value;
          kb.dead_state == tr.dead_state && r.value.name == Unicode.Utf16Decode(tr.units)
    {
      var d := ConvertType(t, ev, last_flags);
      last_flags := d.last_flags;
      if d.event_type.None? {
        return None;
      }
      var name: Option<string> := None;
      if d.event_type.value.KeyPress? {
        name := kb.StringFromCode(AsU32(ev.keycode), MacKeyboard.FlagsToState(ev.flags));
      }
      r := Some(Event(name, d.event_type.value));
    }
  }
}
