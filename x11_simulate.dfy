/** Event injection on X11 (`src/linux/simulate.rs`): an `EventType` becomes the XTest calls
    `send_native` issues, in order; the result of the calls decides success. The X server is an
    oracle: a `Display` logs the calls it receives and answers each by a fixed function of the
    call and its position in the log. */
module X11Simulate {
  import opened Ints
  import opened Wrappers
  import opened Rdev
  import X11Keycodes
  import X11Common

  /** The XTest requests: `XTestFakeKeyEvent`, `XTestFakeButtonEvent`, `XTestFakeMotionEvent`
      (the delay argument is always 0; motion goes to the default screen). */
  datatype XCall =
    | FakeKey(keycode: u32, is_press: bool)
    | FakeButton(button: u32, is_press: bool)
    | FakeMotion(x: i32, y: i32)

  const I32_MIN: int := -0x8000_0000
  const I32_MAX: int := 0x7FFF_FFFF

  /** `f64::round`: the nearest integer, halves rounded away from zero. */
  function Round(r: real): (n: int)
    ensures r - 0.5 <= n as real <= r + 0.5
    ensures r >= 0.0 ==> n as real <= r + 0.5 && r - 0.5 < n as real
    ensures r < 0.0 ==> r - 0.5 <= n as real && n as real < r + 0.5
  {
    if r >= 0.0 then (r + 0.5).Floor else -((-r + 0.5).Floor)
  }

  /** The motion coordinate: clamped to the `c_int` range, then rounded. */
  function MotionCoord(r: real): (n: i32)
    ensures I32_MIN as real <= r <= I32_MAX as real ==> r - 0.5 <= n as real <= r + 0.5
    ensures r <= I32_MIN as real ==> n == I32_MIN
    ensures r >= I32_MAX as real ==> n == I32_MAX
  {
    var c := if r > I32_MAX as real then I32_MAX as real else if r < I32_MIN as real then I32_MIN as real else r;
    Round(c)
  }

  /** An integral coordinate is sent unchanged. */
  lemma MotionCoordOfInt(k: i32)
    ensures MotionCoord(k as real) == k
  {
  }

  /** The X button of an rdev button: 1, 2, 3 for left, middle, right, the code itself otherwise. */
  function ButtonCode(b: Button): (r: u32)
    ensures r == 1 <==> b == Left || b == Button.Unknown(1)
    ensures r == 2 <==> b == Middle || b == Button.Unknown(2)
    ensures r == 3 <==> b == Right || b == Button.Unknown(3)
    ensures b.Unknown? ==> r == b.code
    ensures r < TWO_8
  {
    match b
    case Left => 1
    case Middle => 2
    case Right => 3
    case Unknown(c) => c
  }

  /** `n` clicks of a button: a press and a release each. */
  function Clicks(button: u32, n: nat): (r: seq<XCall>)
    ensures |r| == 2 * n
  {
    if n == 0 then [] else Clicks(button, n - 1) + [FakeButton(button, true), FakeButton(button, false)]
  }

  /** The clicks alternate: a press at every even position, a release at every odd one. */
  lemma {:induction false} ClicksAt(button: u32, n: nat, i: nat)
    requires i < 2 * n
    ensures Clicks(button, n)[i] == FakeButton(button, i % 2 == 0)
  {
    if i < 2 * (n - 1) {
      ClicksAt(button, n - 1, i);
    }
  }

  const I64_MIN: int := -0x8000_0000_0000_0000

  /** `i64::abs` in a release build: the magnitude, except that `i64::MIN`, whose magnitude
      does not fit, wraps around to itself. */
  function WrappingAbs(d: i64): (r: i64)
    ensures (r - Abs(d)) % TWO_64 == 0
    ensures r < 0 <==> d == I64_MIN
  {
    if d == I64_MIN then d else Abs(d)
  }

  /** How often `for _ in 0..n` runs: not at all when `n` is not positive. */
  function RangeLen(n: int): (r: nat)
    ensures n > 0 ==> r == n
    ensures n <= 0 ==> r == 0
  {
    if n > 0 then n else 0
  }

  /** How many clicks a wheel delta gives, `0..delta.abs()`: its magnitude, except none for
      `i64::MIN`. */
  function Notches(d: i64): (n: nat)
    ensures d != I64_MIN ==> n == Abs(d)
    ensures d == I64_MIN ==> n == 0
  {
    RangeLen(WrappingAbs(d))
  }

  /** The buttons the wheel is clicked on: 7 right / 6 left, 4 up / 5 down. */
  function HorizontalButton(delta_x: int): u32 { if delta_x > 0 then 7 else 6 }
  function VerticalButton(delta_y: int): u32 { if delta_y > 0 then 4 else 5 }

  /** The calls `send_native` issues for an event, in order; `None` when a key has no code and
      nothing is sent. */
  function Calls(e: EventType): (r: Option<seq<XCall>>)
    ensures r.None? <==> (e.KeyPress? || e.KeyRelease?) && X11Keycodes.CodeFromKey(e.key).None?
    ensures r.Some? && !e.Wheel? ==> |r.value| == 1
    ensures r.Some? && (e.KeyPress? || e.KeyRelease?) ==>
      r.value == [FakeKey(X11Keycodes.CodeFromKey(e.key).value, e.KeyPress?)]
    ensures e.ButtonPress? || e.ButtonRelease? ==> r == Some([FakeButton(ButtonCode(e.button), e.ButtonPress?)])
    ensures e.Wheel? ==> r.Some? && |r.value| == 2 * (Notches(e.delta_x) + Notches(e.delta_y))
  {
    match e
    case KeyPress(k) =>
      var c := X11Keycodes.CodeFromKey(k);
      if c.None? then None else Some([FakeKey(c.value, true)])
    case KeyRelease(k) =>
      var c := X11Keycodes.CodeFromKey(k);
      if c.None? then None else Some([FakeKey(c.value, false)])
    case ButtonPress(b) => Some([FakeButton(ButtonCode(b), true)])
    case ButtonRelease(b) => Some([FakeButton(ButtonCode(b), false)])
    case MouseMove(x, y) => Some([FakeMotion(MotionCoord(x), MotionCoord(y))])
    case Wheel(dx, dy) => Some(WheelCalls(dx, dy))
  }

  /** The wheel's calls: the horizontal clicks, then the vertical ones. */
  function WheelCalls(dx: i64, dy: i64): (r: seq<XCall>)
    ensures |r| == 2 * (Notches(dx) + Notches(dy))
  {
    Clicks(HorizontalButton(dx), Notches(dx)) + Clicks(VerticalButton(dy), Notches(dy))
  }

  /** The answers of the server to calls logged from position `start` on. */
  function Replies(reply: (nat, XCall) -> bv32, start: nat, calls: seq<XCall>): (rs: seq<bv32>)
    ensures |rs| == |calls|
    decreases |calls|
  {
    if calls == [] then []
    else Replies(reply, start, calls[..|calls| - 1]) + [reply(start + |calls| - 1, calls[|calls| - 1])]
  }

  /** The answer at position `i` is the server's reply to the `i`-th call, logged at
      `start + i`. */
  lemma {:induction false} RepliesAt(reply: (nat, XCall) -> bv32, start: nat, calls: seq<XCall>, i: nat)
    requires i < |calls|
    ensures Replies(reply, start, calls)[i] == reply(start + i, calls[i])
    decreases |calls|
  {
    if i < |calls| - 1 {
      RepliesAt(reply, start, calls[..|calls| - 1], i);
    }
  }

  /** A sequence of answers ANDed together, starting from `acc`. */
  function AndAll(acc: bv32, rs: seq<bv32>): bv32
    decreases |rs|
  {
    if rs == [] then acc else AndAll(acc, rs[..|rs| - 1]) & rs[|rs| - 1]
  }

  /** The wheel's accumulator: the server's answers to `calls`, logged from `start` on, ANDed
      into `acc` in order. */
  function Accumulated(acc: bv32, reply: (nat, XCall) -> bv32, start: nat, calls: seq<XCall>): bv32
    decreases |calls|
  {
    if calls == [] then acc
    else Accumulated(acc, reply, start, calls[..|calls| - 1]) & reply(start + |calls| - 1, calls[|calls| - 1])
  }

  /** The accumulator is the AND of the answers. */
  lemma {:induction false} AccumulatedIsAndAll(acc: bv32, reply: (nat, XCall) -> bv32, start: nat, calls: seq<XCall>)
    ensures Accumulated(acc, reply, start, calls) == AndAll(acc, Replies(reply, start, calls))
    decreases |calls|
  {
    if calls != [] {
      AccumulatedIsAndAll(acc, reply, start, calls[..|calls| - 1]);
      var rs := Replies(reply, start, calls);
      assert rs[..|rs| - 1] == Replies(reply, start, calls[..|calls| - 1]);
    }
  }

  /** Two loops in a row: the second continues from where the first stopped. */
  lemma {:induction false} AccumulatedAppend(acc: bv32, reply: (nat, XCall) -> bv32, start: nat, a: seq<XCall>, b: seq<XCall>)
    ensures Accumulated(acc, reply, start, a + b)
      == Accumulated(Accumulated(acc, reply, start, a), reply, start + |a|, b)
    decreases |b|
  {
    if b == [] {
      assert a + b == a;
    } else {
      assert (a + b)[..|a + b| - 1] == a + b[..|b| - 1];
      AccumulatedAppend(acc, reply, start, a, b[..|b| - 1]);
    }
  }

  /** One more click: its press and release are logged next, and their answers are ANDed into
      the accumulator. */
  lemma ClickStep(acc: bv32, reply: (nat, XCall) -> bv32, start: nat, button: u32, i: nat)
    ensures Clicks(button, i + 1) == Clicks(button, i) + [FakeButton(button, true), FakeButton(button, false)]
    ensures Accumulated(acc, reply, start, Clicks(button, i + 1))
      == Accumulated(acc, reply, start, Clicks(button, i))
         & (reply(start + 2 * i, FakeButton(button, true)) & reply(start + 2 * i + 1, FakeButton(button, false)))
  {
    var c := Clicks(button, i + 1);
    assert c[..|c| - 1][..|c| - 2] == Clicks(button, i);
  }

  /** Whether `send_native` reports success when its calls are logged from `start` on: the
      wheel's accumulator (starting at 1) or the single answer must be non-zero. */
  predicate Succeeds(e: EventType, reply: (nat, XCall) -> bv32, start: nat)
    requires Calls(e).Some?
  {
    if e.Wheel? then Accumulated(1, reply, start, Calls(e).value) != 0
    else reply(start, Calls(e).value[0]) != 0
  }

  /** One answer 0 makes the whole wheel fail. */
  lemma {:induction false} AndAllZero(acc: bv32, rs: seq<bv32>, k: nat)
    requires k < |rs| && rs[k] == 0
    ensures AndAll(acc, rs) == 0
    decreases |rs|
  {
    if k < |rs| - 1 {
      AndAllZero(acc, rs[..|rs| - 1], k);
    }
  }

  /** Answers that are all 1 keep the accumulator at 1. */
  lemma {:induction false} AndAllOnes(rs: seq<bv32>)
    requires forall i :: 0 <= i < |rs| ==> rs[i] == 1
    ensures AndAll(1, rs) == 1
    decreases |rs|
  {
    if rs != [] {
      AndAllOnes(rs[..|rs| - 1]);
    }
  }

  /** A call the server refuses (answers 0) makes the event fail; when every call is accepted
      (answers 1) the event succeeds. */
  lemma SucceedsIffAccepted(e: EventType, reply: (nat, XCall) -> bv32, start: nat)
    requires Calls(e).Some?
    ensures var rs := Replies(reply, start, Calls(e).value);
      (exists k :: 0 <= k < |rs| && rs[k] == 0) ==> !Succeeds(e, reply, start)
    ensures var rs := Replies(reply, start, Calls(e).value);
      (forall i :: 0 <= i < |rs| ==> rs[i] == 1) ==> Succeeds(e, reply, start)
  {
    var cs := Calls(e).value;
    if e.Wheel? {
      AccumulatedAnswers(reply, start, cs);
    } else {
      assert |cs| == 1;
      RepliesAt(reply, start, cs, 0);
      assert Replies(reply, start, cs) == [reply(start, cs[0])];
    }
  }

  /** The accumulator of a run of calls is 0 when one answer is 0, and 1 when all are 1. */
  lemma AccumulatedAnswers(reply: (nat, XCall) -> bv32, start: nat, cs: seq<XCall>)
    ensures var rs := Replies(reply, start, cs);
      (exists k :: 0 <= k < |rs| && rs[k] == 0) ==> Accumulated(1, reply, start, cs) == 0
    ensures var rs := Replies(reply, start, cs);
      (forall i :: 0 <= i < |rs| ==> rs[i] == 1) ==> Accumulated(1, reply, start, cs) == 1
  {
    var rs := Replies(reply, start, cs);
    AccumulatedIsAndAll(1, reply, start, cs);
    if exists k :: 0 <= k < |rs| && rs[k] == 0 {
      var k :| 0 <= k < |rs| && rs[k] == 0;
      AndAllZero(1, rs, k);
    }
    if forall i :: 0 <= i < |rs| ==> rs[i] == 1 {
      AndAllOnes(rs);
    }
  }

  /** `Wheel{0, 0}` issues no call and succeeds whatever the server would answer: the
      accumulator starts at 1. */
  lemma WheelZeroSucceeds(reply: (nat, XCall) -> bv32, start: nat)
    ensures Calls(Wheel(0, 0)) == Some([])
    ensures Succeeds(Wheel(0, 0), reply, start)
  {
  }

  /** `Wheel{i64::MIN, 0}` issues no call and succeeds: the wrapped magnitude is negative, so
      the loop's range is empty. */
  lemma WheelMinSendsNothing(reply: (nat, XCall) -> bv32, start: nat)
    ensures Calls(Wheel(I64_MIN, 0)) == Some([])
    ensures Succeeds(Wheel(I64_MIN, 0), reply, start)
  {
  }

  /** The wheel clicks the horizontal button once per notch of `delta_x`, then the vertical one
      once per notch of `delta_y`. */
  lemma WheelOrder(dx: i64, dy: i64)
    ensures var cs := Calls(Wheel(dx, dy)).value;
      forall i :: 0 <= i < |cs| ==>
        cs[i] == if i < 2 * Notches(dx) then FakeButton(HorizontalButton(dx), i % 2 == 0)
                 else FakeButton(VerticalButton(dy), i % 2 == 0)
  {
    var nx, ny := Notches(dx), Notches(dy);
    var a := Clicks(HorizontalButton(dx), nx);
    var b := Clicks(VerticalButton(dy), ny);
    assert Calls(Wheel(dx, dy)).value == a + b;
    forall i | 0 <= i < |a + b|
      ensures (a + b)[i] == if i < 2 * nx then FakeButton(HorizontalButton(dx), i % 2 == 0)
                            else FakeButton(VerticalButton(dy), i % 2 == 0)
    {
      if i >= 2 * nx {
        var j := i - 2 * nx;
        assert (a + b)[i] == b[j];
        assert j % 2 == i % 2 by {
          assert i == j + 2 * nx;
        }
        ClicksAt(VerticalButton(dy), ny, j);
      } else {
        ClicksAt(HorizontalButton(dx), nx, i);
      }
    }
  }

  /** Appending to a log in two steps or in one gives the same log. */
  lemma AppendAssoc(a: seq<XCall>, b: seq<XCall>, c: seq<XCall>)
    ensures (a + b) + c == a + (b + c)
  {
  }

  /** The X server: the log of the requests it received, and its answer to each. */
  class Display {
    var sent: seq<XCall>
    const reply: (nat, XCall) -> bv32

    constructor (reply: (nat, XCall) -> bv32)
      ensures sent == [] && this.reply == reply
    {
      sent := [];
      this.reply := reply;
    }

    /** One XTest request. */
    method Fake(c: XCall) returns (r: bv32)
      modifies this
      ensures sent == old(sent) + [c]
      ensures r == reply(|old(sent)|, c)
    {
      r := reply(|sent|, c);
      sent := sent + [c];
    }

    /** The wheel's loop: `n` clicks of `button`, ANDing both answers of each click into
        `result`. */
    method ClickLoop(button: u32, n: nat, result0: bv32) returns (result: bv32)
      modifies this
      ensures sent == old(sent) + Clicks(button, n)
      ensures result == Accumulated(result0, reply, |old(sent)|, Clicks(button, n))
    {
      var start := |sent|;
      result := result0;
      var i := 0;
      while i < n
        invariant 0 <= i <= n
        invariant sent == old(sent) + Clicks(button, i)
        invariant |sent| == start + 2 * i
        invariant result == Accumulated(result0, reply, start, Clicks(button, i))
      {
        ClickStep(result0, reply, start, button, i);
        AppendAssoc(old(sent), Clicks(button, i), [FakeButton(button, true), FakeButton(button, false)]);
        var answers := Click(button);
        result := result & answers;
        i := i + 1;
      }
    }

    /** One click of the wheel loop: a press and a release, and the AND of their answers. */
    method Click(button: u32) returns (answers: bv32)
      modifies this
      ensures sent == old(sent) + [FakeButton(button, true), FakeButton(button, false)]
      ensures answers == reply(|old(sent)|, FakeButton(button, true)) & reply(|old(sent)| + 1, FakeButton(button, false))
    {
      var p := Fake(FakeButton(button, true));
      var q := Fake(FakeButton(button, false));
      answers := p & q;
    }

    /** The wheel: the horizontal clicks, then the vertical ones, from an accumulator of 1. */
    method Scroll(dx: i64, dy: i64) returns (result: bv32)
      modifies this
      ensures sent == old(sent) + WheelCalls(dx, dy)
      ensures result == Accumulated(1, reply, |old(sent)|, WheelCalls(dx, dy))
    {
      var h := Clicks(HorizontalButton(dx), Notches(dx));
      var v := Clicks(VerticalButton(dy), Notches(dy));
      AccumulatedAppend(1, reply, |sent|, h, v);
      var afterX := ClickLoop(HorizontalButton(dx), Notches(dx), 1);
      result := ClickLoop(VerticalButton(dy), Notches(dy), afterX);
    }
  }

  /** `send_native`: the log grows by exactly the event's calls (none for a key without a code)
      and the result is their success. */
  method SendNative(e: EventType, display: Display) returns (ok: bool)
    modifies display
    ensures Calls(e).None? ==> display.sent == old(display.sent) && !ok
    ensures Calls(e).Some? ==> display.sent == old(display.sent) + Calls(e).value
    ensures Calls(e).Some? ==> ok == Succeeds(e, display.reply, |old(display.sent)|)
  {
    var res: bv32;
    match e {
      case KeyPress(k) =>
        var c := X11Keycodes.CodeFromKey(k);
        if c.None? {
          return false;
        }
        res := display.Fake(FakeKey(c.value, true));
      case KeyRelease(k) =>
        var c := X11Keycodes.CodeFromKey(k);
        if c.None? {
          return false;
        }
        res := display.Fake(FakeKey(c.value, false));
      case ButtonPress(b) =>
        res := display.Fake(FakeButton(ButtonCode(b), true));
      case ButtonRelease(b) =>
        res := display.Fake(FakeButton(ButtonCode(b), false));
      case MouseMove(x, y) =>
        res := display.Fake(FakeMotion(MotionCoord(x), MotionCoord(y)));
      case Wheel(dx, dy) =>
        res := display.Scroll(dx, dy);
    }
    ok := res != 0;
  }

  /** `simulate`: no display gives an error before anything is sent; otherwise the event's
      calls are sent and the result is theirs. */
  method Simulate(e: EventType, display: Display?) returns (r: Result<(), SimulateError>)
    modifies display
    ensures display == null ==> r == Err(SimulateError.SimulateError)
    ensures display != null && Calls(e).None? ==>
      display.sent == old(display.sent) && r == Err(SimulateError.SimulateError)
    ensures display != null && Calls(e).Some? ==>
      display.sent == old(display.sent) + Calls(e).value
      && (r.Ok? <==> Succeeds(e, display.reply, |old(display.sent)|))
  {
    if display == null {
      return Err(SimulateError.SimulateError);
    }
    var ok := SendNative(e, display);
    if ok {
      r := Ok(());
    } else {
      r := Err(SimulateError.SimulateError);
    }
  }

  // What a listener on the same display hears: each request decoded by the X11 decoder.

  /** The event an XTest request produces, through `convert_event`; the detail byte is the low
      byte of the keycode or button. */
  function Observe(c: XCall): (r: Option<EventType>)
  {
    match c
    case FakeKey(k, p) =>
      X11Common.ConvertEvent(AsU8(k), if p then X11Common.KEY_PRESS else X11Common.KEY_RELEASE, 0.0, 0.0)
    case FakeButton(b, p) =>
      X11Common.ConvertEvent(AsU8(b), if p then X11Common.BUTTON_PRESS else X11Common.BUTTON_RELEASE, 0.0, 0.0)
    case FakeMotion(x, y) =>
      X11Common.ConvertEvent(0, X11Common.MOTION_NOTIFY, x as real, y as real)
  }

  /** The events heard for a sequence of requests; requests that decode to nothing are dropped. */
  function ObserveAll(cs: seq<XCall>): seq<EventType>
    decreases |cs|
  {
    if cs == [] then []
    else
      var last := Observe(cs[|cs| - 1]);
      ObserveAll(cs[..|cs| - 1]) + (if last.Some? then [last.value] else [])
  }

  /** `n` copies of one event. */
  function Repeat(e: EventType, n: nat): (r: seq<EventType>)
    ensures |r| == n
    ensures forall i :: 0 <= i < n ==> r[i] == e
  {
    if n == 0 then [] else Repeat(e, n - 1) + [e]
  }

  /** The notch a click of button 4 or 5 is heard as. */
  function Notch(button: u32): EventType
  {
    Wheel(0, if button == 4 then 1 else -1)
  }

  /** One click of button 4 or 5 is heard as one notch: the press decodes to the wheel and the
      release to nothing. */
  lemma ClickObserved(a: seq<XCall>, button: u32)
    requires button == 4 || button == 5
    ensures ObserveAll(a + [FakeButton(button, true), FakeButton(button, false)]) == ObserveAll(a) + [Notch(button)]
  {
    var cs := a + [FakeButton(button, true), FakeButton(button, false)];
    assert Observe(FakeButton(button, false)).None?;
    assert Observe(FakeButton(button, true)) == Some(Notch(button));
    assert cs[..|cs| - 1] == a + [FakeButton(button, true)];
    assert (a + [FakeButton(button, true)])[..|a|] == a;
  }

  /** Clicks of button 4 or 5 are heard as that many single wheel notches. */
  lemma {:induction false} VerticalClicksObserved(button: u32, n: nat)
    requires button == 4 || button == 5
    ensures ObserveAll(Clicks(button, n)) == Repeat(Notch(button), n)
  {
    if n > 0 {
      VerticalClicksObserved(button, n - 1);
      ClickObserved(Clicks(button, n - 1), button);
    }
  }

  /** A vertical wheel event is heard as single notches in its direction, one per click. */
  lemma VerticalWheelRoundTrip(dy: i64)
    ensures ObserveAll(Calls(Wheel(0, dy)).value) == Repeat(Wheel(0, if dy > 0 then 1 else -1), Notches(dy))
  {
    assert Calls(Wheel(0, dy)).value == Clicks(VerticalButton(dy), Notches(dy));
    VerticalClicksObserved(VerticalButton(dy), Notches(dy));
  }

  /** A horizontal wheel event does not come back as a wheel: button 7 is heard as an unknown
      button pressed and released. */
  lemma HorizontalWheelHeardAsButton()
    ensures ObserveAll(Calls(Wheel(1, 0)).value) == [ButtonPress(Button.Unknown(7)), ButtonRelease(Button.Unknown(7))]
  {
    var cs := Calls(Wheel(1, 0)).value;
    assert cs == [FakeButton(7, true), FakeButton(7, false)];
    assert cs[..1] == [FakeButton(7, true)];
    assert cs[..1][..0] == [];
  }

  /** A named key with a code is heard as the same key, pressed or released. */
  lemma KeyRoundTrip(k: Key, press: bool)
    requires !k.Unknown? && X11Keycodes.CodeFromKey(k).Some?
    ensures ObserveAll(Calls(if press then KeyPress(k) else KeyRelease(k)).value)
      == [if press then KeyPress(k) else KeyRelease(k)]
  {
    var c := X11Keycodes.CodeFromKey(k).value;
    assert X11Keycodes.KeyFromCode(c) == k;
    X11Keycodes.NamedCodeIsByte(c);
    assert Calls(if press then KeyPress(k) else KeyRelease(k)).value == [FakeKey(c, press)];
    ObservedKey(c, press);
  }

  /** A key request with a code below 256 is heard as the key of that code. */
  lemma ObservedKey(c: u32, press: bool)
    requires c < TWO_8
    ensures var k := X11Keycodes.KeyFromCode(c);
      ObserveAll([FakeKey(c, press)]) == [if press then KeyPress(k) else KeyRelease(k)]
  {
    assert [FakeKey(c, press)][..0] == [];
  }

  /** A button is heard as itself, except the unknown codes 1 to 5, which the decoder reads
      as the named buttons and the vertical wheel. */
  lemma ButtonRoundTrip(b: Button, press: bool)
    requires !(b.Unknown? && 1 <= b.code <= 5)
    ensures ObserveAll(Calls(if press then ButtonPress(b) else ButtonRelease(b)).value)
      == [if press then ButtonPress(b) else ButtonRelease(b)]
  {
    var cs := Calls(if press then ButtonPress(b) else ButtonRelease(b)).value;
    assert cs[..0] == [];
  }

  /** A pointer move to integral coordinates is heard as the same move. */
  lemma MotionRoundTrip(x: i32, y: i32)
    ensures ObserveAll(Calls(MouseMove(x as real, y as real)).value) == [MouseMove(x as real, y as real)]
  {
    MotionCoordOfInt(x);
    MotionCoordOfInt(y);
    var cs := Calls(MouseMove(x as real, y as real)).value;
    assert cs[..0] == [];
  }
}
