/** The legacy event record of `src/lib.rs`: a validating constructor and the formatter that
    joins the names of key presses into one string. */
module LegacyEvent {
  import opened Ints
  import opened Wrappers

  /** The legacy `EventType`: a key or a mouse button. */
  datatype EventKind = Key | Button

  datatype EventError = InvalidCoordinates | InvalidName | InvalidTime

  /** The legacy `Event`. Coordinates are `f64` in the source (reals here, no NaN); the
      `SystemTime` stamp is kept as an opaque number. */
  datatype Event = Event(
    code: u8,
    has_alt: bool,
    has_capslock: bool,
    has_ctrl: bool,
    has_meta: bool,
    has_shift: bool,
    time: int,
    press: bool,
    event_type: EventKind,
    x: real,
    y: real,
    name: Option<string>)

  /** A coordinate in the unit interval. */
  predicate InUnit(v: real) { 0.0 <= v <= 1.0 }

  /** The names the constructor accepts: a single space, or a non-empty name without spaces. */
  predicate ValidName(n: string)
  {
    n == " " || (|n| > 0 && forall i :: 0 <= i < |n| ==> n[i] != ' ')
  }

  /** `Event::new`: the coordinates are checked first, then the name (empty, or containing a
      space while not being exactly one space); an event that passes keeps every field. */
  function New(code: u8, has_alt: bool, has_capslock: bool, has_ctrl: bool, has_meta: bool,
               has_shift: bool, time: int, press: bool, event_type: EventKind, x: real, y: real,
               name: Option<string>): (r: Result<Event, EventError>)
    ensures r == Err(InvalidCoordinates) <==> !InUnit(x) || !InUnit(y)
    ensures r == Err(InvalidName) <==> InUnit(x) && InUnit(y) && name.Some? && !ValidName(name.value)
    ensures r.Ok? <==> InUnit(x) && InUnit(y) && (name.Some? ==> ValidName(name.value))
    ensures r.Ok? ==> r.value == Event(code, has_alt, has_capslock, has_ctrl, has_meta, has_shift,
                                        time, press, event_type, x, y, name)
  {
    if x < 0.0 || x > 1.0 || y < 0.0 || y > 1.0 then Err(InvalidCoordinates)
    else if name.Some? && name.value == "" then Err(InvalidName)
    else if name.Some? && name.value != " " && ' ' in name.value then Err(InvalidName)
    else Ok(Event(code, has_alt, has_capslock, has_ctrl, has_meta, has_shift, time, press,
                  event_type, x, y, name))
  }

  /** The key event of the unit tests: code 1, no modifiers, a press at the given position. */
  function TestKey(x: real, name: Option<string>): Result<Event, EventError>
  {
    New(1, false, false, false, false, false, 0, true, Key, x, 0.0, name)
  }

  /** The unit tests of the constructor: a negative coordinate, an empty name and a name with a
      space are refused; a one-letter name and no name are accepted. */
  lemma NewTests()
    ensures TestKey(-1.0, Some("e")) == Err(InvalidCoordinates)
    ensures TestKey(0.0, Some("")) == Err(InvalidName)
    ensures TestKey(0.0, Some("Some event")) == Err(InvalidName)
    ensures TestKey(0.0, Some("H")).Ok? && TestKey(0.0, None).Ok?
  {
    assert "Some event"[4] == ' ';
  }

  /** Bad coordinates are reported even when the name is bad too. */
  lemma CoordinatesCheckedFirst(x: real, n: string)
    requires !InUnit(x)
    ensures TestKey(x, Some(n)) == Err(InvalidCoordinates)
  {
  }

  /** What one event adds to the formatted string: its name when it is a named press. */
  function Contribution(e: Event): string
  {
    if e.press && e.name.Some? then e.name.value else ""
  }

  /** The names of the named presses, in order. */
  function Formatted(es: seq<Event>): string
    decreases |es|
  {
    if es == [] then "" else Formatted(es[..|es| - 1]) + Contribution(es[|es| - 1])
  }

  /** The total length of the names that go into the formatted string. */
  function NamesLength(es: seq<Event>): nat
    decreases |es|
  {
    if es == [] then 0 else NamesLength(es[..|es| - 1]) + |Contribution(es[|es| - 1])|
  }

  /** `format_events`: walk the events in order and append the name of every named press. */
  method FormatEvents(events: seq<Event>) returns (s: string)
    ensures s == Formatted(events)
    ensures |s| == NamesLength(events)
  {
    s := "";
    var i := 0;
    while i < |events|
      invariant 0 <= i <= |events|
      invariant s == Formatted(events[..i])
    {
      assert events[..i + 1][..i] == events[..i];
      var event := events[i];
      if event.press && event.name.Some? {
        s := s + event.name.value;
      }
      i := i + 1;
    }
    assert events[..i] == events;
    FormattedLength(events);
  }

  /** The formatted string is exactly as long as the names it joins. */
  lemma {:induction false} FormattedLength(es: seq<Event>)
    ensures |Formatted(es)| == NamesLength(es)
    decreases |es|
  {
    if es != [] {
      FormattedLength(es[..|es| - 1]);
    }
  }

  /** Formatting a concatenation is concatenating the formattings: each event's name lands in
      the output at the place of the event. */
  lemma {:induction false} FormattedAppend(a: seq<Event>, b: seq<Event>)
    ensures Formatted(a + b) == Formatted(a) + Formatted(b)
    decreases |b|
  {
    if b == [] {
      assert a + b == a;
    } else {
      assert (a + b)[..|a + b| - 1] == a + b[..|b| - 1];
      FormattedAppend(a, b[..|b| - 1]);
    }
  }

  /** Events that are not presses contribute nothing. */
  lemma {:induction false} NoPressNoText(es: seq<Event>)
    requires forall i :: 0 <= i < |es| ==> !es[i].press
    ensures Formatted(es) == ""
    decreases |es|
  {
    if es != [] {
      NoPressNoText(es[..|es| - 1]);
    }
  }

  /** The formatter's unit test: the presses "H" and "e" give "He". */
  lemma FormatSimple()
    ensures TestKey(0.0, Some("H")).Ok? && TestKey(0.0, Some("e")).Ok?
    ensures Formatted([TestKey(0.0, Some("H")).value, TestKey(0.0, Some("e")).value]) == "He"
  {
    var es := [TestKey(0.0, Some("H")).value, TestKey(0.0, Some("e")).value];
    assert es[..1][..0] == [];
    assert es[..1] == [es[0]];
  }
}
