/** The evdev grab of the Wayland backend: raw input events become `EventType`s while the
    pointer position is tracked and clamped to the screen, the user callback decides whether
    each event is passed on, and `/dev/input` entries are filtered before they are opened. */
module EvdevGrab {
  import opened Ints
  import opened Wrappers
  import opened Rdev
  import GrabKeys
  import X11Keyboard

  /** The `EV_REL` axes that are decoded. */
  const REL_X: u16 := 0x00
  const REL_Y: u16 := 0x01
  const REL_HWHEEL: u16 := 0x06
  const REL_WHEEL: u16 := 0x08

  /** The code of an input event: a key or button, a relative axis, or anything else. */
  datatype EventCode = EvKey(key: u16) | EvRel(axis: u16) | EvOther

  /** An evdev `InputEvent` without its timestamp. */
  datatype InputEvent = InputEvent(event_code: EventCode, value: i32)

  /** A tracked coordinate after adding a delta: first raised to 0, then lowered to the
      screen extent, in that order. */
  function ClampToScreen(v: real, extent: real): (r: real)
    ensures 0.0 <= extent ==> 0.0 <= r <= extent
    ensures 0.0 <= v <= extent ==> r == v
    ensures v < 0.0 && 0.0 <= extent ==> r == 0.0
    ensures v > extent && 0.0 <= extent ==> r == extent
  {
    var raised := if v < 0.0 then 0.0 else v;
    if raised > extent then extent else raised
  }

  /** A decoded event with the tracked position after it. */
  datatype Tracked = Tracked(event_type: Option<EventType>, x: real, y: real)

  /** `evdev_event_to_rdev_event` as a function of the position before the event. */
  function Decode(ev: InputEvent, x: real, y: real, w: real, h: real): (r: Tracked)
    ensures !(ev.event_code.EvRel? && (ev.event_code.axis == REL_X || ev.event_code.axis == REL_Y)) ==>
      r.x == x && r.y == y
    ensures ev.event_code.EvKey? && GrabKeys.EvdevKeyToRdevButton(ev.event_code.key).Some? ==>
      var b := GrabKeys.EvdevKeyToRdevButton(ev.event_code.key).value;
      r.event_type == Some(if ev.value == 0 then ButtonRelease(b) else ButtonPress(b))
    ensures ev.event_code.EvKey? && GrabKeys.EvdevKeyToRdevButton(ev.event_code.key).None? ==>
      var k := GrabKeys.EvdevKeyToRdevKey(ev.event_code.key);
      r.event_type == (if k.None? then None else Some(if ev.value == 0 then KeyRelease(k.value) else KeyPress(k.value)))
    ensures ev.event_code == EvRel(REL_X) ==>
      r.x == ClampToScreen(x + ev.value as real, w) && r.y == y && r.event_type == Some(MouseMove(r.x, y))
    ensures ev.event_code == EvRel(REL_Y) ==>
      r.x == x && r.y == ClampToScreen(y + ev.value as real, h) && r.event_type == Some(MouseMove(x, r.y))
    ensures ev.event_code == EvRel(REL_HWHEEL) ==> r.event_type == Some(Wheel(ev.value, 0))
    ensures ev.event_code == EvRel(REL_WHEEL) ==> r.event_type == Some(Wheel(0, ev.value))
    ensures ev.event_code.EvRel? && ev.event_code.axis !in {REL_X, REL_Y, REL_HWHEEL, REL_WHEEL} ==> r.event_type.None?
    ensures ev.event_code.EvOther? ==> r.event_type.None?
  {
    match ev.event_code
    case EvKey(key) =>
      var button := GrabKeys.EvdevKeyToRdevButton(key);
      if button.Some? then
        Tracked(Some(if ev.value == 0 then ButtonRelease(button.value) else ButtonPress(button.value)), x, y)
      else
        var k := GrabKeys.EvdevKeyToRdevKey(key);
        if k.Some? then Tracked(Some(if ev.value == 0 then KeyRelease(k.value) else KeyPress(k.value)), x, y)
        else Tracked(None, x, y)
    case EvRel(axis) =>
      if axis == REL_X then
        var nx := ClampToScreen(x + ev.value as real, w);
        Tracked(Some(MouseMove(nx, y)), nx, y)
      else if axis == REL_Y then
        var ny := ClampToScreen(y + ev.value as real, h);
        Tracked(Some(MouseMove(x, ny)), x, ny)
      else if axis == REL_HWHEEL then Tracked(Some(Wheel(ev.value, 0)), x, y)
      else if axis == REL_WHEEL then Tracked(Some(Wheel(0, ev.value)), x, y)
      else Tracked(None, x, y)
    case EvOther => Tracked(None, x, y)
  }

  /** Every value other than 0, auto-repeat (2) included, is a press. */
  lemma NonZeroValueIsPress(key: u16, value: i32, x: real, y: real, w: real, h: real)
    requires value != 0
    requires GrabKeys.EvdevKeyToRdevKey(key).Some? || GrabKeys.EvdevKeyToRdevButton(key).Some?
    ensures var t := Decode(InputEvent(EvKey(key), value), x, y, w, h).event_type;
      t.Some? && (t.value.KeyPress? || t.value.ButtonPress?)
  {
  }

  /** A sequence of events, decoded one after the other from a position on the screen, keeps
      the position on the screen. */
  function DecodeAll(evs: seq<InputEvent>, x: real, y: real, w: real, h: real): (r: Tracked)
    decreases |evs|
  {
    if evs == [] then Tracked(None, x, y)
    else
      var d := Decode(evs[0], x, y, w, h);
      if |evs| == 1 then d else DecodeAll(evs[1..], d.x, d.y, w, h)
  }

  lemma {:induction false} DecodeAllStaysOnScreen(evs: seq<InputEvent>, x: real, y: real, w: real, h: real)
    requires 0.0 <= x <= w && 0.0 <= y <= h
    ensures var r := DecodeAll(evs, x, y, w, h); 0.0 <= r.x <= w && 0.0 <= r.y <= h
    decreases |evs|
  {
    if |evs| > 1 {
      var d := Decode(evs[0], x, y, w, h);
      DecodeAllStaysOnScreen(evs[1..], d.x, d.y, w, h);
    }
  }

  /** The name `add` of the X11 keyboard gives an event, from its state and serial before. */
  function AddedName(lookup: (u32, u32, nat) -> X11Keyboard.Lookup, st: X11Keyboard.State, serial: nat, e: EventType): (r: Option<string>)
    ensures X11Keyboard.AddLookupCode(e).None? ==> r.None?
  {
    var code := X11Keyboard.AddLookupCode(e);
    if code.None? then None else X11Keyboard.NameOfLookup(lookup(code.value, X11Keyboard.Value(st), serial))
  }

  /** The state of one grab: the tracked pointer position and the screen size. */
  class GrabPass {
    var x: real
    var y: real
    const w: real
    const h: real

    predicate OnScreen()
      reads this
    {
      0.0 <= x <= w && 0.0 <= y <= h
    }

    /** The position starts where the display reports the pointer, the size is the display's. */
    constructor(x: real, y: real, w: real, h: real)
      ensures this.x == x && this.y == y && this.w == w && this.h == h
    {
      this.x := x;
      this.y := y;
      this.w := w;
      this.h := h;
    }

    /** `evdev_event_to_rdev_event` on the tracked position: a relative motion moves the
        coordinate of its axis and clamps it; the result keeps the pointer on the screen. */
    method EvdevEventToRdevEvent(ev: InputEvent) returns (event_type: Option<EventType>)
      modifies this
      ensures Tracked(event_type, x, y) == Decode(ev, old(x), old(y), w, h)
      ensures old(OnScreen()) ==> OnScreen()
    {
      if ev.event_code == EvRel(REL_X) {
        x := x + ev.value as real;
        if x < 0.0 {
          x := 0.0;
        }
        if x > w {
          x := w;
        }
        return Some(MouseMove(x, y));
      } else if ev.event_code == EvRel(REL_Y) {
        y := y + ev.value as real;
        if y < 0.0 {
          y := 0.0;
        }
        if y > h {
          y := h;
        }
        return Some(MouseMove(x, y));
      }
      event_type := Decode(ev, x, y, w, h).event_type;
    }

    /** One step of the grab: an event that cannot be decoded is passed on unchanged; a
        decoded one is named by the keyboard and given to the callback, and the original
        raw event is passed on when the callback returns something, dropped when it returns
        nothing. */
    method Step(ev: InputEvent, callback: Event -> Option<Event>, kb: X11Keyboard.Keyboard) returns (out: Option<InputEvent>)
      modifies this, kb
      ensures var d := Decode(ev, old(x), old(y), w, h); x == d.x && y == d.y
      ensures var d := Decode(ev, old(x), old(y), w, h);
        d.event_type.None? ==> out == Some(ev) && kb.state == old(kb.state) && kb.serial == old(kb.serial)
      ensures var d := Decode(ev, old(x), old(y), w, h);
        d.event_type.Some? ==>
          kb.state == X11Keyboard.AddState(old(kb.state), d.event_type.value)
          && kb.serial == old(kb.serial) + (if X11Keyboard.AddLookupCode(d.event_type.value).Some? then 1 else 0)
          && var name := AddedName(kb.lookup, old(kb.state), old(kb.serial), d.event_type.value);
          (out == if callback(Event(name, d.event_type.value)).Some? then Some(ev) else None)
    {
      var event_type := EvdevEventToRdevEvent(ev);
      if event_type.None? {
        return Some(ev);
      }
      var name := kb.Add(event_type.value);
      if callback(Event(name, event_type.value)).Some? {
        out := Some(ev);
      } else {
        out := None;
      }
    }
  }

  /** The names `get_device_files` skips: "mice", and names starting with "js" or "mouse". */
  predicate Skipped(name: string)
  {
    name == "mice" || (|name| >= 2 && name[..2] == "js") || (|name| >= 5 && name[..5] == "mouse")
  }

  /** Names too short for a prefix are only skipped when they are "mice". */
  lemma ShortNamesSkippedOnlyAsMice(name: string)
    requires |name| < 2
    ensures !Skipped(name)
  {
  }

  /** Examples of the skip test on literal names; the general facts are
      `ShortNamesSkippedOnlyAsMice` and `WantedNames`. */
  lemma SkippedExamples()
    ensures Skipped("mice") && Skipped("js0") && Skipped("mouse0") && Skipped("mouse")
    ensures !Skipped("event3") && !Skipped("j") && !Skipped("mous") && !Skipped("mic")
  {
    assert "js0"[..2] == "js";
    assert "mouse0"[..5] == "mouse";
    assert "mouse"[..5] == "mouse";
    assert "event3"[..2] == "ev" && "event3"[..5] == "event";
    assert "mic"[..2] == "mi" && "mous"[..2] == "mo";
  }

  /** A directory entry of `/dev/input`: one that cannot be read, or one with its file name
      (`None` for a path with none), whether it is a character device, and the error opening
      it would give, if any. */
  datatype DirEntry =
    | Unreadable(err: IoFailure)
    | Entry(file_name: Option<string>, char_device: bool, open_error: Option<IoFailure>)

  /** Whether an entry is opened (rather than skipped). */
  predicate Wanted(e: DirEntry)
  {
    e.Entry? && e.char_device && e.file_name.Some? && !Skipped(e.file_name.value)
  }

  /** The names of the wanted entries, in directory order. */
  function WantedNames(es: seq<DirEntry>): (r: seq<string>)
    ensures |r| <= |es|
    ensures forall n :: n in r ==> !Skipped(n)
    decreases |es|
  {
    if es == [] then []
    else
      var prev := WantedNames(es[..|es| - 1]);
      var e := es[|es| - 1];
      if Wanted(e) then prev + [e.file_name.value] else prev
  }

  /** Whether reading the entries stops with an error: an unreadable entry, or a wanted one
      that does not open; the first such error is the one returned. */
  function FirstError(es: seq<DirEntry>): (r: Option<IoFailure>)
    ensures r.Some? ==> exists i :: 0 <= i < |es| && (es[i].Unreadable? || (Wanted(es[i]) && es[i].open_error.Some?))
    decreases |es|
  {
    if es == [] then None
    else
      var prev := FirstError(es[..|es| - 1]);
      var e := es[|es| - 1];
      if prev.Some? then prev
      else if e.Unreadable? then Some(e.err)
      else if Wanted(e) && e.open_error.Some? then e.open_error
      else None
  }

  /** Without any unreadable or unopenable entry, reading succeeds. */
  lemma {:induction false} NoFailureNoError(es: seq<DirEntry>)
    requires forall i :: 0 <= i < |es| ==> es[i].Entry? && (Wanted(es[i]) ==> es[i].open_error.None?)
    ensures FirstError(es).None?
    decreases |es|
  {
    if es != [] {
      NoFailureNoError(es[..|es| - 1]);
    }
  }

  /** `get_device_files`: the wanted entries are opened in directory order, and the first
      failure (reading an entry or opening a wanted one) ends the listing with that error. */
  method GetDeviceFiles(es: seq<DirEntry>) returns (r: Result<seq<string>, IoFailure>)
    ensures FirstError(es).Some? ==> r == Err(FirstError(es).value)
    ensures FirstError(es).None? ==> r == Ok(WantedNames(es))
  {
    var res: seq<string> := [];
    var i := 0;
    while i < |es|
      invariant 0 <= i <= |es|
      invariant FirstError(es[..i]).None?
      invariant res == WantedNames(es[..i])
    {
      assert es[..i + 1][..i] == es[..i];
      var e := es[i];
      if e.Unreadable? {
        PrefixError(es, i + 1);
        return Err(e.err);
      }
      if !e.char_device || e.file_name.None? || Skipped(e.file_name.value) {
        i := i + 1;
        continue;
      }
      if e.open_error.Some? {
        PrefixError(es, i + 1);
        return Err(e.open_error.value);
      }
      res := res + [e.file_name.value];
      i := i + 1;
    }
    assert es[..i] == es;
    r := Ok(res);
  }

  /** An error in a prefix is the error of the whole listing. */
  lemma {:induction false} PrefixError(es: seq<DirEntry>, n: nat)
    requires n <= |es|
    requires FirstError(es[..n]).Some?
    ensures FirstError(es) == FirstError(es[..n])
    decreases |es| - n
  {
    if n < |es| {
      assert es[..n + 1][..n] == es[..n];
      PrefixError(es, n + 1);
    } else {
      assert es[..n] == es;
    }
  }

  /** `INOTIFY_DATA`, the epoll tag reserved for the inotify watch. */
  const INOTIFY_DATA: int := TWO_64 - 1

  /** The error `setup_inotify` reports when the devices use up every epoll tag
      ("too many device files!" of kind `Other`; the kind is kept abstract). */
  const TOO_MANY_DEVICES: IoFailure := IoFailure(0)

  /** The bound check of `setup_inotify`: the device count, as a `u64`, must stay below
      the reserved tag, so every device tag differs from it. */
  function SetupInotifyCheck(device_count: u64): (r: Result<(), IoFailure>)
    ensures r.Ok? <==> device_count < INOTIFY_DATA
    ensures r.Err? ==> r.error == TOO_MANY_DEVICES
  {
    if device_count >= INOTIFY_DATA then Err(TOO_MANY_DEVICES) else Ok(())
  }
}
