/** The platform-independent event model: keys, buttons, event types and errors, and the
    parser of key names. */
module Rdev {
  import opened Ints
  import opened Wrappers

  /** Keys by physical position on a QWERTY keyboard, and `Unknown` for a raw platform code.
      The media keys at the end are the ones the evdev table of the Wayland backend names;
      the named keys are in declaration order. */
  datatype Key =
    | Unknown(code: u32)
    | Alt | AltGr | Backspace | CapsLock | ControlLeft | ControlRight | Delete | DownArrow
    | End | Escape | F1 | F10 | F11 | F12 | F2 | F3
    | F4 | F5 | F6 | F7 | F8 | F9 | Home | LeftArrow
    | MetaLeft | MetaRight | PageDown | PageUp | Return | RightArrow | ShiftLeft | ShiftRight
    | Space | Tab | UpArrow | PrintScreen | ScrollLock | Pause | NumLock | BackQuote
    | Num1 | Num2 | Num3 | Num4 | Num5 | Num6 | Num7 | Num8
    | Num9 | Num0 | Minus | Equal | KeyQ | KeyW | KeyE | KeyR
    | KeyT | KeyY | KeyU | KeyI | KeyO | KeyP | LeftBracket | RightBracket
    | KeyA | KeyS | KeyD | KeyF | KeyG | KeyH | KeyJ | KeyK
    | KeyL | SemiColon | Quote | BackSlash | IntlBackslash | KeyZ | KeyX | KeyC
    | KeyV | KeyB | KeyN | KeyM | Comma | Dot | Slash | Insert
    | KpReturn | KpMinus | KpPlus | KpMultiply | KpDivide | Kp0 | Kp1 | Kp2
    | Kp3 | Kp4 | Kp5 | Kp6 | Kp7 | Kp8 | Kp9 | KpDelete
    | Function | VolumeMute | VolumeDown | VolumeUp | NextTrack | PlayPause | PreviousTrack | PlayCd

  /** The media keys, which only the evdev tables know. */
  predicate IsMedia(k: Key)
  {
    k.VolumeMute? || k.VolumeDown? || k.VolumeUp? || k.NextTrack? || k.PlayPause?
    || k.PreviousTrack? || k.PlayCd?
  }

  datatype Button = Left | Right | Middle | Unknown(code: u8)

  /** Coordinates are `f64` in the source; here they are reals (no NaN, no rounding). */
  datatype EventType =
    | KeyPress(key: Key)
    | KeyRelease(key: Key)
    | ButtonPress(button: Button)
    | ButtonRelease(button: Button)
    | MouseMove(x: real, y: real)
    | Wheel(delta_x: i64, delta_y: i64)

  /** An event as delivered to callbacks; the timestamp is not modelled. */
  datatype Event = Event(name: Option<string>, event_type: EventType)

  /** The unit error of every `simulate`. */
  datatype SimulateError = SimulateError

  /** An `std::io::Error`, kept abstract. */
  datatype IoFailure = IoFailure(kind: int)

  datatype ListenError =
    | EventTapError | LoopSourceError | MissingDisplayError | KeyboardError
    | RecordContextEnablingError | RecordContextError | XRecordExtensionError
    | KeyHookError(code: u32) | MouseHookError(code: u32)

  datatype GrabError =
    | EventTapError | LoopSourceError | MissingDisplayError | KeyboardError
    | KeyHookError(code: u32) | MouseHookError(code: u32)
    | SimulateError
    | IoError(err: IoFailure)

  datatype DisplayError = NoDisplay | ConversionError

  /** `From<SimulateError> for GrabError`. */
  function GrabErrorFromSimulate(e: SimulateError): (r: GrabError)
    ensures r.SimulateError?
  {
    GrabError.SimulateError
  }

  /** `From<std::io::Error> for GrabError`: the error is carried unchanged. */
  function GrabErrorFromIo(e: IoFailure): (r: GrabError)
    ensures r.IoError? && r.err == e
  {
    GrabError.IoError(e)
  }

  predicate IsUpper(c: char) { 'A' <= c <= 'Z' }

  /** The KELVIN SIGN, the one character outside ASCII that `char::to_lowercase` maps to an ASCII
      letter. */
  const KELVIN_SIGN: char := '\U{212A}'

  /** `str::to_lowercase` on the characters that can matter to `Key::from_str`: each ASCII
      capital becomes its small letter, the Kelvin sign becomes `k`, and every other character is
      kept. */
  function Lower(s: string): (r: string)
    ensures |r| == |s|
    ensures forall i :: 0 <= i < |s| ==> !IsUpper(r[i]) && r[i] != KELVIN_SIGN
    ensures forall i :: 0 <= i < |s| ==>
      r[i] == if IsUpper(s[i]) then s[i] + ' ' else if s[i] == KELVIN_SIGN then 'k' else s[i]
  {
    seq(|s|, i requires 0 <= i < |s| =>
      if IsUpper(s[i]) then s[i] + ' ' else if s[i] == KELVIN_SIGN then 'k' else s[i])
  }

  /** The match arms of `Key::from_str`, applied to the already lowercased name and spelled
      exactly as written (two of them with capitals). The arms are tried in source order, in
      consecutive groups of seven; since no two arms share a name, the first group that matches
      gives the arm the single `match` would take. `Group`n holds the keys group n returns and
      `Spelling`n the name each of them is matched by. */
  function Lookup(t: string): (r: Option<Key>)
    ensures r.Some? ==> !r.value.Unknown?
    ensures r == Some(ScrollLock) ==> t == "scrollLock"
    ensures r == Some(NumLock) ==> t == "numLock"
  {
    if Arms1(t).Some? then Arms1(t)
    else if Arms2(t).Some? then Arms2(t)
    else if Arms3(t).Some? then Arms3(t)
    else if Arms4(t).Some? then Arms4(t)
    else if Arms5(t).Some? then Arms5(t)
    else if Arms6(t).Some? then Arms6(t)
    else if Arms7(t).Some? then Arms7(t)
    else if Arms8(t).Some? then Arms8(t)
    else if Arms9(t).Some? then Arms9(t)
    else if Arms10(t).Some? then Arms10(t)
    else if Arms11(t).Some? then Arms11(t)
    else if Arms12(t).Some? then Arms12(t)
    else if Arms13(t).Some? then Arms13(t)
    else if Arms14(t).Some? then Arms14(t)
    else Arms15(t)
  }

  /** The one name each parsable key is matched by, as its arm spells it; the other keys have
      none. */
  function Spelling(k: Key): (r: Option<string>)
  {
    if Group1(k) then Spelling1(k)
    else if Group2(k) then Spelling2(k)
    else if Group3(k) then Spelling3(k)
    else if Group4(k) then Spelling4(k)
    else if Group5(k) then Spelling5(k)
    else if Group6(k) then Spelling6(k)
    else if Group7(k) then Spelling7(k)
    else if Group8(k) then Spelling8(k)
    else if Group9(k) then Spelling9(k)
    else if Group10(k) then Spelling10(k)
    else if Group11(k) then Spelling11(k)
    else if Group12(k) then Spelling12(k)
    else if Group13(k) then Spelling13(k)
    else if Group14(k) then Spelling14(k)
    else if Group15(k) then Spelling15(k)
    else None
  }

  /** Arms 1 to 7: each name the group matches is its key's spelling. */
  function Arms1(t: string): (r: Option<Key>)
    ensures r.Some? ==> Spelling1(r.value) == Some(t)
  {
    match t
    case "alt" => Some(Alt)
    case "altgr" => Some(AltGr)
    case "backspace" => Some(Backspace)
    case "capslock" => Some(CapsLock)
    case "controlleft" => Some(ControlLeft)
    case "controlright" => Some(ControlRight)
    case "delete" => Some(Delete)
    case _ => None
  }

  predicate Group1(k: Key)
  {
    k.Alt? || k.AltGr? || k.Backspace? || k.CapsLock?
    || k.ControlLeft? || k.ControlRight? || k.Delete?
  }

  function Spelling1(k: Key): (r: Option<string>)
    ensures r.Some? <==> Group1(k)
  {
    if k.Alt? then Some("alt")
    else if k.AltGr? then Some("altgr")
    else if k.Backspace? then Some("backspace")
    else if k.CapsLock? then Some("capslock")
    else if k.ControlLeft? then Some("controlleft")
    else if k.ControlRight? then Some("controlright")
    else if k.Delete? then Some("delete")
    else None
  }

  /** Arms 8 to 14: each name the group matches is its key's spelling. */
  function Arms2(t: string): (r: Option<Key>)
    ensures r.Some? ==> Spelling2(r.value) == Some(t)
  {
    match t
    case "downarrow" => Some(DownArrow)
    case "end" => Some(End)
    case "escape" => Some(Escape)
    case "f1" => Some(F1)
    case "f10" => Some(F10)
    case "f11" => Some(F11)
    case "f12" => Some(F12)
    case _ => None
  }

  predicate Group2(k: Key)
  {
    k.DownArrow? || k.End? || k.Escape? || k.F1?
    || k.F10? || k.F11? || k.F12?
  }

  function Spelling2(k: Key): (r: Option<string>)
    ensures r.Some? <==> Group2(k)
  {
    if k.DownArrow? then Some("downarrow")
    else if k.End? then Some("end")
    else if k.Escape? then Some("escape")
    else if k.F1? then Some("f1")
    else if k.F10? then Some("f10")
    else if k.F11? then Some("f11")
    else if k.F12? then Some("f12")
    else None
  }

  /** Arms 15 to 21: each name the group matches is its key's spelling. */
  function Arms3(t: string): (r: Option<Key>)
    ensures r.Some? ==> Spelling3(r.value) == Some(t)
  {
    match t
    case "f2" => Some(F2)
    case "f3" => Some(F3)
    case "f4" => Some(F4)
    case "f5" => Some(F5)
    case "f6" => Some(F6)
    case "f7" => Some(F7)
    case "f8" => Some(F8)
    case _ => None
  }

  predicate Group3(k: Key)
  {
    k.F2? || k.F3? || k.F4? || k.F5?
    || k.F6? || k.F7? || k.F8?
  }

  function Spelling3(k: Key): (r: Option<string>)
    ensures r.Some? <==> Group3(k)
  {
    if k.F2? then Some("f2")
    else if k.F3? then Some("f3")
    else if k.F4? then Some("f4")
    else if k.F5? then Some("f5")
    else if k.F6? then Some("f6")
    else if k.F7? then Some("f7")
    else if k.F8? then Some("f8")
    else None
  }

  /** Arms 22 to 28: each name the group matches is its key's spelling. */
  function Arms4(t: string): (r: Option<Key>)
    ensures r.Some? ==> Spelling4(r.value) == Some(t)
  {
    match t
    case "f9" => Some(F9)
    case "home" => Some(Home)
    case "leftarrow" => Some(LeftArrow)
    case "metaleft" => Some(MetaLeft)
    case "metaright" => Some(MetaRight)
    case "pagedown" => Some(PageDown)
    case "pageup" => Some(PageUp)
    case _ => None
  }

  predicate Group4(k: Key)
  {
    k.F9? || k.Home? || k.LeftArrow? || k.MetaLeft?
    || k.MetaRight? || k.PageDown? || k.PageUp?
  }

  function Spelling4(k: Key): (r: Option<string>)
    ensures r.Some? <==> Group4(k)
  {
    if k.F9? then Some("f9")
    else if k.Home? then Some("home")
    else if k.LeftArrow? then Some("leftarrow")
    else if k.MetaLeft? then Some("metaleft")
    else if k.MetaRight? then Some("metaright")
    else if k.PageDown? then Some("pagedown")
    else if k.PageUp? then Some("pageup")
    else None
  }

  /** Arms 29 to 35: each name the group matches is its key's spelling. */
  function Arms5(t: string): (r: Option<Key>)
    ensures r.Some? ==> Spelling5(r.value) == Some(t)
  {
    match t
    case "return" => Some(Return)
    case "rightarrow" => Some(RightArrow)
    case "shiftleft" => Some(ShiftLeft)
    case "shiftright" => Some(ShiftRight)
    case "space" => Some(Space)
    case "tab" => Some(Tab)
    case "uparrow" => Some(UpArrow)
    case _ => None
  }

  predicate Group5(k: Key)
  {
    k.Return? || k.RightArrow? || k.ShiftLeft? || k.ShiftRight?
    || k.Space? || k.Tab? || k.UpArrow?
  }

  function Spelling5(k: Key): (r: Option<string>)
    ensures r.Some? <==> Group5(k)
  {
    if k.Return? then Some("return")
    else if k.RightArrow? then Some("rightarrow")
    else if k.ShiftLeft? then Some("shiftleft")
    else if k.ShiftRight? then Some("shiftright")
    else if k.Space? then Some("space")
    else if k.Tab? then Some("tab")
    else if k.UpArrow? then Some("uparrow")
    else None
  }

  /** Arms 36 to 42: each name the group matches is its key's spelling. */
  function Arms6(t: string): (r: Option<Key>)
    ensures r.Some? ==> Spelling6(r.value) == Some(t)
  {
    match t
    case "printscreen" => Some(PrintScreen)
    case "scrollLock" => Some(ScrollLock)
    case "pause" => Some(Pause)
    case "numLock" => Some(NumLock)
    case "backquote" => Some(BackQuote)
    case "num1" => Some(Num1)
    case "num2" => Some(Num2)
    case _ => None
  }

  predicate Group6(k: Key)
  {
    k.PrintScreen? || k.ScrollLock? || k.Pause? || k.NumLock?
    || k.BackQuote? || k.Num1? || k.Num2?
  }

  function Spelling6(k: Key): (r: Option<string>)
    ensures r.Some? <==> Group6(k)
  {
    if k.PrintScreen? then Some("printscreen")
    else if k.ScrollLock? then Some("scrollLock")
    else if k.Pause? then Some("pause")
    else if k.NumLock? then Some("numLock")
    else if k.BackQuote? then Some("backquote")
    else if k.Num1? then Some("num1")
    else if k.Num2? then Some("num2")
    else None
  }

  /** Arms 43 to 49: each name the group matches is its key's spelling. */
  function Arms7(t: string): (r: Option<Key>)
    ensures r.Some? ==> Spelling7(r.value) == Some(t)
  {
    match t
    case "num3" => Some(Num3)
    case "num4" => Some(Num4)
    case "num5" => Some(Num5)
    case "num6" => Some(Num6)
    case "num7" => Some(Num7)
    case "num8" => Some(Num8)
    case "num9" => Some(Num9)
    case _ => None
  }

  predicate Group7(k: Key)
  {
    k.Num3? || k.Num4? || k.Num5? || k.Num6?
    || k.Num7? || k.Num8? || k.Num9?
  }

  function Spelling7(k: Key): (r: Option<string>)
    ensures r.Some? <==> Group7(k)
  {
    if k.Num3? then Some("num3")
    else if k.Num4? then Some("num4")
    else if k.Num5? then Some("num5")
    else if k.Num6? then Some("num6")
    else if k.Num7? then Some("num7")
    else if k.Num8? then Some("num8")
    else if k.Num9? then Some("num9")
    else None
  }

  /** Arms 50 to 56: each name the group matches is its key's spelling. */
  function Arms8(t: string): (r: Option<Key>)
    ensures r.Some? ==> Spelling8(r.value) == Some(t)
  {
    match t
    case "num0" => Some(Num0)
    case "minus" => Some(Minus)
    case "equal" => Some(Equal)
    case "q" => Some(KeyQ)
    case "w" => Some(KeyW)
    case "e" => Some(KeyE)
    case "r" => Some(KeyR)
    case _ => None
  }

  predicate Group8(k: Key)
  {
    k.Num0? || k.Minus? || k.Equal? || k.KeyQ?
    || k.KeyW? || k.KeyE? || k.KeyR?
  }

  function Spelling8(k: Key): (r: Option<string>)
    ensures r.Some? <==> Group8(k)
  {
    if k.Num0? then Some("num0")
    else if k.Minus? then Some("minus")
    else if k.Equal? then Some("equal")
    else if k.KeyQ? then Some("q")
    else if k.KeyW? then Some("w")
    else if k.KeyE? then Some("e")
    else if k.KeyR? then Some("r")
    else None
  }

  /** Arms 57 to 63: each name the group matches is its key's spelling. */
  function Arms9(t: string): (r: Option<Key>)
    ensures r.Some? ==> Spelling9(r.value) == Some(t)
  {
    match t
    case "t" => Some(KeyT)
    case "y" => Some(KeyY)
    case "u" => Some(KeyU)
    case "i" => Some(KeyI)
    case "o" => Some(KeyO)
    case "p" => Some(KeyP)
    case "leftbracket" => Some(LeftBracket)
    case _ => None
  }

  predicate Group9(k: Key)
  {
    k.KeyT? || k.KeyY? || k.KeyU? || k.KeyI?
    || k.KeyO? || k.KeyP? || k.LeftBracket?
  }

  function Spelling9(k: Key): (r: Option<string>)
    ensures r.Some? <==> Group9(k)
  {
    if k.KeyT? then Some("t")
    else if k.KeyY? then Some("y")
    else if k.KeyU? then Some("u")
    else if k.KeyI? then Some("i")
    else if k.KeyO? then Some("o")
    else if k.KeyP? then Some("p")
    else if k.LeftBracket? then Some("leftbracket")
    else None
  }

  /** Arms 64 to 70: each name the group matches is its key's spelling. */
  function Arms10(t: string): (r: Option<Key>)
    ensures r.Some? ==> Spelling10(r.value) == Some(t)
  {
    match t
    case "rightbracket" => Some(RightBracket)
    case "a" => Some(KeyA)
    case "s" => Some(KeyS)
    case "d" => Some(KeyD)
    case "f" => Some(KeyF)
    case "g" => Some(KeyG)
    case "h" => Some(KeyH)
    case _ => None
  }

  predicate Group10(k: Key)
  {
    k.RightBracket? || k.KeyA? || k.KeyS? || k.KeyD?
    || k.KeyF? || k.KeyG? || k.KeyH?
  }

  function Spelling10(k: Key): (r: Option<string>)
    ensures r.Some? <==> Group10(k)
  {
    if k.RightBracket? then Some("rightbracket")
    else if k.KeyA? then Some("a")
    else if k.KeyS? then Some("s")
    else if k.KeyD? then Some("d")
    else if k.KeyF? then Some("f")
    else if k.KeyG? then Some("g")
    else if k.KeyH? then Some("h")
    else None
  }

  /** Arms 71 to 77: each name the group matches is its key's spelling. */
  function Arms11(t: string): (r: Option<Key>)
    ensures r.Some? ==> Spelling11(r.value) == Some(t)
  {
    match t
    case "j" => Some(KeyJ)
    case "k" => Some(KeyK)
    case "l" => Some(KeyL)
    case "semicolon" => Some(SemiColon)
    case "quote" => Some(Quote)
    case "backslash" => Some(BackSlash)
    case "intlbackslash" => Some(IntlBackslash)
    case _ => None
  }

  predicate Group11(k: Key)
  {
    k.KeyJ? || k.KeyK? || k.KeyL? || k.SemiColon?
    || k.Quote? || k.BackSlash? || k.IntlBackslash?
  }

  function Spelling11(k: Key): (r: Option<string>)
    ensures r.Some? <==> Group11(k)
  {
    if k.KeyJ? then Some("j")
    else if k.KeyK? then Some("k")
    else if k.KeyL? then Some("l")
    else if k.SemiColon? then Some("semicolon")
    else if k.Quote? then Some("quote")
    else if k.BackSlash? then Some("backslash")
    else if k.IntlBackslash? then Some("intlbackslash")
    else None
  }

  /** Arms 78 to 84: each name the group matches is its key's spelling. */
  function Arms12(t: string): (r: Option<Key>)
    ensures r.Some? ==> Spelling12(r.value) == Some(t)
  {
    match t
    case "z" => Some(KeyZ)
    case "x" => Some(KeyX)
    case "c" => Some(KeyC)
    case "v" => Some(KeyV)
    case "b" => Some(KeyB)
    case "n" => Some(KeyN)
    case "m" => Some(KeyM)
    case _ => None
  }

  predicate Group12(k: Key)
  {
    k.KeyZ? || k.KeyX? || k.KeyC? || k.KeyV?
    || k.KeyB? || k.KeyN? || k.KeyM?
  }

  function Spelling12(k: Key): (r: Option<string>)
    ensures r.Some? <==> Group12(k)
  {
    if k.KeyZ? then Some("z")
    else if k.KeyX? then Some("x")
    else if k.KeyC? then Some("c")
    else if k.KeyV? then Some("v")
    else if k.KeyB? then Some("b")
    else if k.KeyN? then Some("n")
    else if k.KeyM? then Some("m")
    else None
  }

  /** Arms 85 to 91: each name the group matches is its key's spelling. */
  function Arms13(t: string): (r: Option<Key>)
    ensures r.Some? ==> Spelling13(r.value) == Some(t)
  {
    match t
    case "comma" => Some(Comma)
    case "dot" => Some(Dot)
    case "slash" => Some(Slash)
    case "insert" => Some(Insert)
    case "kpreturn" => Some(KpReturn)
    case "kpminus" => Some(KpMinus)
    case "kpplus" => Some(KpPlus)
    case _ => None
  }

  predicate Group13(k: Key)
  {
    k.Comma? || k.Dot? || k.Slash? || k.Insert?
    || k.KpReturn? || k.KpMinus? || k.KpPlus?
  }

  function Spelling13(k: Key): (r: Option<string>)
    ensures r.Some? <==> Group13(k)
  {
    if k.Comma? then Some("comma")
    else if k.Dot? then Some("dot")
    else if k.Slash? then Some("slash")
    else if k.Insert? then Some("insert")
    else if k.KpReturn? then Some("kpreturn")
    else if k.KpMinus? then Some("kpminus")
    else if k.KpPlus? then Some("kpplus")
    else None
  }

  /** Arms 92 to 98: each name the group matches is its key's spelling. */
  function Arms14(t: string): (r: Option<Key>)
    ensures r.Some? ==> Spelling14(r.value) == Some(t)
  {
    match t
    case "kpmultiply" => Some(KpMultiply)
    case "kpdivide" => Some(KpDivide)
    case "kp0" => Some(Kp0)
    case "kp1" => Some(Kp1)
    case "kp2" => Some(Kp2)
    case "kp3" => Some(Kp3)
    case "kp4" => Some(Kp4)
    case _ => None
  }

  predicate Group14(k: Key)
  {
    k.KpMultiply? || k.KpDivide? || k.Kp0? || k.Kp1?
    || k.Kp2? || k.Kp3? || k.Kp4?
  }

  function Spelling14(k: Key): (r: Option<string>)
    ensures r.Some? <==> Group14(k)
  {
    if k.KpMultiply? then Some("kpmultiply")
    else if k.KpDivide? then Some("kpdivide")
    else if k.Kp0? then Some("kp0")
    else if k.Kp1? then Some("kp1")
    else if k.Kp2? then Some("kp2")
    else if k.Kp3? then Some("kp3")
    else if k.Kp4? then Some("kp4")
    else None
  }

  /** Arms 99 to 105: each name the group matches is its key's spelling. */
  function Arms15(t: string): (r: Option<Key>)
    ensures r.Some? ==> Spelling15(r.value) == Some(t)
  {
    match t
    case "kp5" => Some(Kp5)
    case "kp6" => Some(Kp6)
    case "kp7" => Some(Kp7)
    case "kp8" => Some(Kp8)
    case "kp9" => Some(Kp9)
    case "kpdelete" => Some(KpDelete)
    case "function" => Some(Function)
    case _ => None
  }

  predicate Group15(k: Key)
  {
    k.Kp5? || k.Kp6? || k.Kp7? || k.Kp8?
    || k.Kp9? || k.KpDelete? || k.Function?
  }

  function Spelling15(k: Key): (r: Option<string>)
    ensures r.Some? <==> Group15(k)
  {
    if k.Kp5? then Some("kp5")
    else if k.Kp6? then Some("kp6")
    else if k.Kp7? then Some("kp7")
    else if k.Kp8? then Some("kp8")
    else if k.Kp9? then Some("kp9")
    else if k.KpDelete? then Some("kpdelete")
    else if k.Function? then Some("function")
    else None
  }

  /** `Key::from_str`: lowercase, then look the name up. A result is never `Unknown`. */
  function FromStr(s: string): (r: Option<Key>)
    ensures r.Some? ==> !r.value.Unknown?
  {
    Lookup(Lower(s))
  }

  lemma LowerOfLower(s: string)
    ensures Lower(Lower(s)) == Lower(s)
  {
  }

  /** Case does not matter: a name and its lowercase form parse alike. */
  lemma FromStrCaseInsensitive(s: string)
    ensures FromStr(s) == FromStr(Lower(s))
  {
    LowerOfLower(s);
  }

  /** A lowercased string differs from any string with a capital in it. */
  lemma LowerIsNot(s: string, w: string, i: nat)
    requires i < |w| && IsUpper(w[i])
    ensures Lower(s) != w
  {
    if |s| == |w| {
      assert !IsUpper(Lower(s)[i]);
    }
  }

  /** The arms for ScrollLock and NumLock contain capitals, which lowercased input never
      does: no input parses to either key. */
  lemma ScrollLockNumLockUnparsable(s: string)
    ensures FromStr(s) != Some(ScrollLock) && FromStr(s) != Some(NumLock)
  {
    LowerIsNot(s, "scrollLock", 6);
    LowerIsNot(s, "numLock", 3);
  }

  /** Lowercasing a word whose small letters are given character by character. */
  lemma LowerIs(s: string, t: string)
    requires |s| == |t|
    requires forall i :: 0 <= i < |s| ==>
      t[i] == if IsUpper(s[i]) then s[i] + ' ' else if s[i] == KELVIN_SIGN then 'k' else s[i]
    ensures Lower(s) == t
  {
  }

  /** The cases the parser's unit test pins down. */
  lemma FromStrParsesKp0()
    ensures FromStr("Kp0") == Some(Kp0)
  {
    LowerIs("Kp0", "kp0");
  }

  lemma FromStrParsesDot()
    ensures FromStr("Dot") == Some(Dot)
  {
    LowerIs("Dot", "dot");
  }

  lemma FromStrParsesKpMultiply()
    ensures FromStr("KpMultiply") == Some(KpMultiply)
  {
    LowerIs("KpMultiply", "kpmultiply");
  }

  lemma FromStrRejectsAbraca()
    ensures FromStr("abraca") == None
  {
    LowerIs("abraca", "abraca");
  }

  /** Letter keys are named by the bare letter, not by the variant name. */
  lemma FromStrLetters()
    ensures FromStr("s") == Some(KeyS) && FromStr("S") == Some(KeyS)
  {
    LowerIs("S", "s");
    LowerIs("s", "s");
  }

  /** The variant name of a letter key is not one of its names. */
  lemma FromStrRejectsVariantName()
    ensures FromStr("keys") == None
  {
    LowerIs("keys", "keys");
  }

  /** The Kelvin sign lowercases to `k`, so it names KeyK and spells `Kp0` with its first
      letter. */
  lemma FromStrKelvin()
    ensures FromStr([KELVIN_SIGN]) == Some(KeyK)
    ensures FromStr([KELVIN_SIGN, 'p', '0']) == Some(Kp0)
  {
    LowerIs([KELVIN_SIGN], "k");
    LowerIs([KELVIN_SIGN, 'p', '0'], "kp0");
  }

  /** Each key the lookup returns has exactly one name: the one it was looked up by. */
  lemma LookupSpelling(t: string)
    ensures Lookup(t).Some? ==> Spelling(Lookup(t).value) == Some(t)
  {
    if Arms1(t).Some? {
    } else if Arms2(t).Some? {
      GroupApart2(Arms2(t).value);
    } else if Arms3(t).Some? {
      GroupApart3(Arms3(t).value);
    } else if Arms4(t).Some? {
      GroupApart4(Arms4(t).value);
    } else if Arms5(t).Some? {
      GroupApart5(Arms5(t).value);
    } else if Arms6(t).Some? {
      GroupApart6a(Arms6(t).value); GroupApart6b(Arms6(t).value);
    } else if Arms7(t).Some? {
      GroupApart7a(Arms7(t).value); GroupApart7b(Arms7(t).value);
    } else if Arms8(t).Some? {
      GroupApart8a(Arms8(t).value); GroupApart8b(Arms8(t).value);
    } else if Arms9(t).Some? {
      GroupApart9a(Arms9(t).value); GroupApart9b(Arms9(t).value);
    } else if Arms10(t).Some? {
      GroupApart10a(Arms10(t).value); GroupApart10b(Arms10(t).value);
      GroupApart10c(Arms10(t).value);
    } else if Arms11(t).Some? {
      GroupApart11a(Arms11(t).value); GroupApart11b(Arms11(t).value);
      GroupApart11c(Arms11(t).value);
    } else if Arms12(t).Some? {
      GroupApart12a(Arms12(t).value); GroupApart12b(Arms12(t).value);
      GroupApart12c(Arms12(t).value);
    } else if Arms13(t).Some? {
      GroupApart13a(Arms13(t).value); GroupApart13b(Arms13(t).value);
      GroupApart13c(Arms13(t).value);
    } else if Arms14(t).Some? {
      GroupApart14a(Arms14(t).value); GroupApart14b(Arms14(t).value);
      GroupApart14c(Arms14(t).value); GroupApart14d(Arms14(t).value);
    } else if Arms15(t).Some? {
      GroupApart15a(Arms15(t).value); GroupApart15b(Arms15(t).value);
      GroupApart15c(Arms15(t).value); GroupApart15d(Arms15(t).value);
    }
  }

  /** Two names parse to the same key only when they lowercase alike. */
  lemma FromStrOneSpelling(s: string, t: string)
    requires FromStr(s).Some? && FromStr(s) == FromStr(t)
    ensures Lower(s) == Lower(t)
  {
    LookupSpelling(Lower(s));
    LookupSpelling(Lower(t));
  }

  /** The parser as evidently intended: the two arms spelled in lowercase. */
  function FromStrIntended(s: string): (r: Option<Key>)
    ensures r.Some? ==> !r.value.Unknown?
  {
    var t := Lower(s);
    if t == "scrolllock" then Some(ScrollLock)
    else if t == "numlock" then Some(NumLock)
    else FromStr(s)
  }

  /** With the intended arms ScrollLock and NumLock parse, in any case. */
  lemma FromStrIntendedParsesLockKeys(s: string)
    ensures Lower(s) == "scrolllock" ==> FromStrIntended(s) == Some(ScrollLock)
    ensures Lower(s) == "numlock" ==> FromStrIntended(s) == Some(NumLock)
    ensures FromStrIntended("ScrollLock") == Some(ScrollLock)
    ensures FromStrIntended("NumLock") == Some(NumLock)
  {
    LowerIs("ScrollLock", "scrolllock");
    LowerIs("NumLock", "numlock");
  }

  /** Every other input parses as before. */
  lemma FromStrIntendedConservative(s: string)
    requires Lower(s) != "scrolllock" && Lower(s) != "numlock"
    ensures FromStrIntended(s) == FromStr(s)
  {
  }

  // Proof scaffolding. The lemmas below only split the case analysis of the lemmas above
  // into pieces the verifier handles quickly: one per table row, per key or per group, and
  // the chunks that gather them. They state nothing beyond those lemmas.

  lemma GroupApart2(k: Key)
    requires Group2(k)
    ensures !Group1(k)
  {
  }

  lemma GroupApart3(k: Key)
    requires Group3(k)
    ensures !Group1(k) && !Group2(k)
  {
  }

  lemma GroupApart4(k: Key)
    requires Group4(k)
    ensures !Group1(k) && !Group2(k) && !Group3(k)
  {
  }

  lemma GroupApart5(k: Key)
    requires Group5(k)
    ensures !Group1(k) && !Group2(k) && !Group3(k) && !Group4(k)
  {
  }

  lemma GroupApart6a(k: Key)
    requires Group6(k)
    ensures !Group1(k) && !Group2(k) && !Group3(k) && !Group4(k)
  {
  }

  lemma GroupApart6b(k: Key)
    requires Group6(k)
    ensures !Group5(k)
  {
  }

  lemma GroupApart7a(k: Key)
    requires Group7(k)
    ensures !Group1(k) && !Group2(k) && !Group3(k) && !Group4(k)
  {
  }

  lemma GroupApart7b(k: Key)
    requires Group7(k)
    ensures !Group5(k) && !Group6(k)
  {
  }

  lemma GroupApart8a(k: Key)
    requires Group8(k)
    ensures !Group1(k) && !Group2(k) && !Group3(k) && !Group4(k)
  {
  }

  lemma GroupApart8b(k: Key)
    requires Group8(k)
    ensures !Group5(k) && !Group6(k) && !Group7(k)
  {
  }

  lemma GroupApart9a(k: Key)
    requires Group9(k)
    ensures !Group1(k) && !Group2(k) && !Group3(k) && !Group4(k)
  {
  }

  lemma GroupApart9b(k: Key)
    requires Group9(k)
    ensures !Group5(k) && !Group6(k) && !Group7(k) && !Group8(k)
  {
  }

  lemma GroupApart10a(k: Key)
    requires Group10(k)
    ensures !Group1(k) && !Group2(k) && !Group3(k) && !Group4(k)
  {
  }

  lemma GroupApart10b(k: Key)
    requires Group10(k)
    ensures !Group5(k) && !Group6(k) && !Group7(k) && !Group8(k)
  {
  }

  lemma GroupApart10c(k: Key)
    requires Group10(k)
    ensures !Group9(k)
  {
  }

  lemma GroupApart11a(k: Key)
    requires Group11(k)
    ensures !Group1(k) && !Group2(k) && !Group3(k) && !Group4(k)
  {
  }

  lemma GroupApart11b(k: Key)
    requires Group11(k)
    ensures !Group5(k) && !Group6(k) && !Group7(k) && !Group8(k)
  {
  }

  lemma GroupApart11c(k: Key)
    requires Group11(k)
    ensures !Group9(k) && !Group10(k)
  {
  }

  lemma GroupApart12a(k: Key)
    requires Group12(k)
    ensures !Group1(k) && !Group2(k) && !Group3(k) && !Group4(k)
  {
  }

  lemma GroupApart12b(k: Key)
    requires Group12(k)
    ensures !Group5(k) && !Group6(k) && !Group7(k) && !Group8(k)
  {
  }

  lemma GroupApart12c(k: Key)
    requires Group12(k)
    ensures !Group9(k) && !Group10(k) && !Group11(k)
  {
  }

  lemma GroupApart13a(k: Key)
    requires Group13(k)
    ensures !Group1(k) && !Group2(k) && !Group3(k) && !Group4(k)
  {
  }

  lemma GroupApart13b(k: Key)
    requires Group13(k)
    ensures !Group5(k) && !Group6(k) && !Group7(k) && !Group8(k)
  {
  }

  lemma GroupApart13c(k: Key)
    requires Group13(k)
    ensures !Group9(k) && !Group10(k) && !Group11(k) && !Group12(k)
  {
  }

  lemma GroupApart14a(k: Key)
    requires Group14(k)
    ensures !Group1(k) && !Group2(k) && !Group3(k) && !Group4(k)
  {
  }

  lemma GroupApart14b(k: Key)
    requires Group14(k)
    ensures !Group5(k) && !Group6(k) && !Group7(k) && !Group8(k)
  {
  }

  lemma GroupApart14c(k: Key)
    requires Group14(k)
    ensures !Group9(k) && !Group10(k) && !Group11(k) && !Group12(k)
  {
  }

  lemma GroupApart14d(k: Key)
    requires Group14(k)
    ensures !Group13(k)
  {
  }

  lemma GroupApart15a(k: Key)
    requires Group15(k)
    ensures !Group1(k) && !Group2(k) && !Group3(k) && !Group4(k)
  {
  }

  lemma GroupApart15b(k: Key)
    requires Group15(k)
    ensures !Group5(k) && !Group6(k) && !Group7(k) && !Group8(k)
  {
  }

  lemma GroupApart15c(k: Key)
    requires Group15(k)
    ensures !Group9(k) && !Group10(k) && !Group11(k) && !Group12(k)
  {
  }

  lemma GroupApart15d(k: Key)
    requires Group15(k)
    ensures !Group13(k) && !Group14(k)
  {
  }
}
