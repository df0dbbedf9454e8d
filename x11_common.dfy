/** The X11 event decoder of the Linux backend: an X event type and its detail byte become an
    `EventType`; mouse buttons 4 and 5 are the vertical wheel. */
module X11Common {
  import opened Ints
  import opened Wrappers
  import opened Rdev
  import X11Keycodes
  import X11Keyboard

  /** The event types of `X.h`. */
  const KEY_PRESS: int := 2
  const KEY_RELEASE: int := 3
  const BUTTON_PRESS: int := 4
  const BUTTON_RELEASE: int := 5
  const MOTION_NOTIFY: int := 6

  /** The event types `ConvertEvent` decodes. */
  predicate Handled(type_: int) { KEY_PRESS <= type_ <= MOTION_NOTIFY }

  /** `convert_event`. */
  function ConvertEvent(code: u8, type_: int, x: real, y: real): (r: Option<EventType>)
    ensures r.None? <==> !Handled(type_) || (type_ == BUTTON_RELEASE && (code == 4 || code == 5))
    ensures type_ == KEY_PRESS ==> r == Some(KeyPress(X11Keycodes.KeyFromCode(code)))
    ensures type_ == KEY_RELEASE ==> r == Some(KeyRelease(X11Keycodes.KeyFromCode(code)))
    ensures r.Some? && (r.value.KeyPress? || r.value.KeyRelease?) ==> X11Keycodes.CodeFromKey(r.value.key) == Some(code)
    ensures type_ == BUTTON_PRESS && code == 4 ==> r == Some(Wheel(0, 1))
    ensures type_ == BUTTON_PRESS && code == 5 ==> r == Some(Wheel(0, -1))
    ensures r.Some? && r.value.Wheel? ==> type_ == BUTTON_PRESS && (code == 4 || code == 5)
    ensures r.Some? && (r.value.ButtonPress? || r.value.ButtonRelease?) ==>
      (if type_ == BUTTON_PRESS then r.value.ButtonPress? else type_ == BUTTON_RELEASE && r.value.ButtonRelease?)
      && (r.value.button == Left <==> code == 1)
      && (r.value.button == Middle <==> code == 2)
      && (r.value.button == Right <==> code == 3)
      && (r.value.button.Unknown? ==> r.value.button.code == code)
    ensures r.Some? && r.value.MouseMove? ==> type_ == MOTION_NOTIFY && r.value.x == x && r.value.y == y
  {
    if type_ == KEY_PRESS then
      X11Keycodes.CodeRoundTrip(code);
      Some(KeyPress(X11Keycodes.KeyFromCode(code)))
    else if type_ == KEY_RELEASE then
      X11Keycodes.CodeRoundTrip(code);
      Some(KeyRelease(X11Keycodes.KeyFromCode(code)))
    else if type_ == BUTTON_PRESS then
      match code
      case 1 => Some(ButtonPress(Left))
      case 2 => Some(ButtonPress(Middle))
      case 3 => Some(ButtonPress(Right))
      case 4 => Some(Wheel(0, 1))
      case 5 => Some(Wheel(0, -1))
      case _ => Some(ButtonPress(Button.Unknown(code)))
    else if type_ == BUTTON_RELEASE then
      match code
      case 1 => Some(ButtonRelease(Left))
      case 2 => Some(ButtonRelease(Middle))
      case 3 => Some(ButtonRelease(Right))
      case 4 => None
      case 5 => None
      case _ => Some(ButtonRelease(Button.Unknown(code)))
    else if type_ == MOTION_NOTIFY then
      Some(MouseMove(x, y))
    else
      None
  }

  /** `convert`: the detail is truncated to its low byte for decoding; a key press is named by
      a freshly opened keyboard (the `lookup` of it, `None` when it cannot be opened), which
      is given the full keycode and the modifier state at serial 0. */
  function Convert(code: u32, state: u32, type_: int, x: real, y: real,
                   lookup: Option<(u32, u32, nat) -> X11Keyboard.Lookup>): (r: Option<Event>)
    ensures r.None? <==> ConvertEvent(AsU8(code), type_, x, y).None?
    ensures r.Some? ==> Some(r.value.event_type) == ConvertEvent(AsU8(code), type_, x, y)
    ensures r.Some? && !r.value.event_type.KeyPress? ==> r.value.name.None?
    ensures r.Some? && r.value.event_type.KeyPress? ==>
      r.value.name == (if lookup.None? then None else X11Keyboard.NameOfLookup(lookup.value(code, state, 0)))
  {
    var event_type := ConvertEvent(AsU8(code), type_, x, y);
    if event_type.None? then None
    else
      var name :=
        if event_type.value.KeyPress? && lookup.Some? then X11Keyboard.NameOfLookup(lookup.value(code, state, 0))
        else None;
      Some(Event(name, event_type.value))
  }

  /** Only the low byte of the detail is decoded: details 256 apart give the same event. */
  lemma ConvertTruncatesCode(code: u32, state: u32, type_: int, x: real, y: real)
    requires code < TWO_32 - TWO_8
    ensures ConvertEvent(AsU8(code), type_, x, y) == ConvertEvent(AsU8(code + TWO_8), type_, x, y)
  {
    assert AsU8(code) == AsU8(code + TWO_8);
  }
}
