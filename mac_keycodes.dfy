/** The macOS virtual keycodes of the `Key` enumeration. */
module MacKeycodes {
  import opened Ints
  import opened Wrappers
  import opened Rdev

  /** The named keys that have no macOS virtual keycode. */
  predicate Unmapped(key: Key)
  {
    key.ControlRight? || key.Delete? || key.End? || key.Home? || key.PageDown? || key.PageUp?
    || key.PrintScreen? || key.ScrollLock? || key.Pause? || key.NumLock? || key.IntlBackslash?
    || key.Insert? || key.KpReturn? || key.KpMinus? || key.KpPlus? || key.KpMultiply?
    || key.KpDivide? || key.Kp0? || key.Kp1? || key.Kp2? || key.Kp3? || key.Kp4? || key.Kp5?
    || key.Kp6? || key.Kp7? || key.Kp8? || key.Kp9? || key.KpDelete? || key.VolumeMute?
    || key.VolumeDown? || key.VolumeUp? || key.NextTrack? || key.PlayPause?
    || key.PreviousTrack? || key.PlayCd?
  }

  /** The macOS virtual keycode of a key: a raw `Unknown` code is passed through, and the named keys without a keycode have none. Each code is written out with the name of its constant. */
  function CodeFromKey(key: Key): (r: Option<u32>)
    ensures !key.Unknown? && r.Some? ==> KeyFromCode(r.value) == key
    ensures !key.Unknown? && r.None? ==> Unmapped(key)
  {
    match key
    case Alt => Some(58)  // ALT
    case AltGr => Some(61)  // ALT_GR
    case Backspace => Some(51)  // BACKSPACE
    case CapsLock => Some(57)  // CAPS_LOCK
    case ControlLeft => Some(59)  // CONTROL_LEFT
    case DownArrow => Some(125)  // DOWN_ARROW
    case Escape => Some(53)  // ESCAPE
    case F1 => Some(122)  // F1
    case F10 => Some(109)  // F10
    case F11 => Some(103)  // F11
    case F12 => Some(111)  // F12
    case F2 => Some(120)  // F2
    case F3 => Some(99)  // F3
    case F4 => Some(118)  // F4
    case F5 => Some(96)  // F5
    case F6 => Some(97)  // F6
    case F7 => Some(98)  // F7
    case F8 => Some(100)  // F8
    case F9 => Some(101)  // F9
    case LeftArrow => Some(123)  // LEFT_ARROW
    case MetaLeft => Some(55)  // META_LEFT
    case MetaRight => Some(54)  // META_RIGHT
    case Return => Some(36)  // RETURN
    case RightArrow => Some(124)  // RIGHT_ARROW
    case ShiftLeft => Some(56)  // SHIFT_LEFT
    case ShiftRight => Some(60)  // SHIFT_RIGHT
    case Space => Some(49)  // SPACE
    case Tab => Some(48)  // TAB
    case UpArrow => Some(126)  // UP_ARROW
    case BackQuote => Some(50)  // BACK_QUOTE
    case Num1 => Some(18)  // NUM1
    case Num2 => Some(19)  // NUM2
    case Num3 => Some(20)  // NUM3
    case Num4 => Some(21)  // NUM4
    case Num5 => Some(23)  // NUM5
    case Num6 => Some(22)  // NUM6
    case Num7 => Some(26)  // NUM7
    case Num8 => Some(28)  // NUM8
    case Num9 => Some(25)  // NUM9
    case Num0 => Some(29)  // NUM0
    case Minus => Some(27)  // MINUS
    case Equal => Some(24)  // EQUAL
    case KeyQ => Some(12)  // KEY_Q
    case KeyW => Some(13)  // KEY_W
    case KeyE => Some(14)  // KEY_E
    case KeyR => Some(15)  // KEY_R
    case KeyT => Some(17)  // KEY_T
    case KeyY => Some(16)  // KEY_Y
    case KeyU => Some(32)  // KEY_U
    case KeyI => Some(34)  // KEY_I
    case KeyO => Some(31)  // KEY_O
    case KeyP => Some(35)  // KEY_P
    case LeftBracket => Some(33)  // LEFT_BRACKET
    case RightBracket => Some(30)  // RIGHT_BRACKET
    case KeyA => Some(0)  // KEY_A
    case KeyS => Some(1)  // KEY_S
    case KeyD => Some(2)  // KEY_D
    case KeyF => Some(3)  // KEY_F
    case KeyG => Some(5)  // KEY_G
    case KeyH => Some(4)  // KEY_H
    case KeyJ => Some(38)  // KEY_J
    case KeyK => Some(40)  // KEY_K
    case KeyL => Some(37)  // KEY_L
    case SemiColon => Some(41)  // SEMI_COLON
    case Quote => Some(39)  // QUOTE
    case BackSlash => Some(42)  // BACK_SLASH
    case KeyZ => Some(6)  // KEY_Z
    case KeyX => Some(7)  // KEY_X
    case KeyC => Some(8)  // KEY_C
    case KeyV => Some(9)  // KEY_V
    case KeyB => Some(11)  // KEY_B
    case KeyN => Some(45)  // KEY_N
    case KeyM => Some(46)  // KEY_M
    case Comma => Some(43)  // COMMA
    case Dot => Some(47)  // DOT
    case Slash => Some(44)  // SLASH
    case Function => Some(63)  // FUNCTION
    case Unknown(code) => Some(code)
    case ControlRight | Delete | End | Home | PageDown | PageUp | PrintScreen | ScrollLock | Pause | NumLock | IntlBackslash | Insert | KpReturn | KpMinus | KpPlus | KpMultiply | KpDivide | Kp0 | Kp1 | Kp2 | Kp3 | Kp4 | Kp5 | Kp6 | Kp7 | Kp8 | Kp9 | KpDelete | VolumeMute | VolumeDown | VolumeUp | NextTrack | PlayPause | PreviousTrack | PlayCd => None
  }

  /** A raw `Unknown` code is passed through as the keycode. */
  lemma UnknownCode(c: u32)
    ensures CodeFromKey(Key.Unknown(c)) == Some(c)
  {
  }

  /** The key of a macOS virtual keycode; a code that is none of the named constants is `Unknown`. */
  function KeyFromCode(code: u32): (key: Key)
    ensures key.Unknown? ==> key.code == code
  {
    match code
    case 58 => Key.Alt  // ALT
    case 61 => Key.AltGr  // ALT_GR
    case 51 => Key.Backspace  // BACKSPACE
    case 57 => Key.CapsLock  // CAPS_LOCK
    case 59 => Key.ControlLeft  // CONTROL_LEFT
    case 125 => Key.DownArrow  // DOWN_ARROW
    case 53 => Key.Escape  // ESCAPE
    case 122 => Key.F1  // F1
    case 109 => Key.F10  // F10
    case 103 => Key.F11  // F11
    case 111 => Key.F12  // F12
    case 120 => Key.F2  // F2
    case 99 => Key.F3  // F3
    case 118 => Key.F4  // F4
    case 96 => Key.F5  // F5
    case 97 => Key.F6  // F6
    case 98 => Key.F7  // F7
    case 100 => Key.F8  // F8
    case 101 => Key.F9  // F9
    case 123 => Key.LeftArrow  // LEFT_ARROW
    case 55 => Key.MetaLeft  // META_LEFT
    case 54 => Key.MetaRight  // META_RIGHT
    case 36 => Key.Return  // RETURN
    case 124 => Key.RightArrow  // RIGHT_ARROW
    case 56 => Key.ShiftLeft  // SHIFT_LEFT
    case 60 => Key.ShiftRight  // SHIFT_RIGHT
    case 49 => Key.Space  // SPACE
    case 48 => Key.Tab  // TAB
    case 126 => Key.UpArrow  // UP_ARROW
    case 50 => Key.BackQuote  // BACK_QUOTE
    case 18 => Key.Num1  // NUM1
    case 19 => Key.Num2  // NUM2
    case 20 => Key.Num3  // NUM3
    case 21 => Key.Num4  // NUM4
    case 23 => Key.Num5  // NUM5
    case 22 => Key.Num6  // NUM6
    case 26 => Key.Num7  // NUM7
    case 28 => Key.Num8  // NUM8
    case 25 => Key.Num9  // NUM9
    case 29 => Key.Num0  // NUM0
    case 27 => Key.Minus  // MINUS
    case 24 => Key.Equal  // EQUAL
    case 12 => Key.KeyQ  // KEY_Q
    case 13 => Key.KeyW  // KEY_W
    case 14 => Key.KeyE  // KEY_E
    case 15 => Key.KeyR  // KEY_R
    case 17 => Key.KeyT  // KEY_T
    case 16 => Key.KeyY  // KEY_Y
    case 32 => Key.KeyU  // KEY_U
    case 34 => Key.KeyI  // KEY_I
    case 31 => Key.KeyO  // KEY_O
    case 35 => Key.KeyP  // KEY_P
    case 33 => Key.LeftBracket  // LEFT_BRACKET
    case 30 => Key.RightBracket  // RIGHT_BRACKET
    case 0 => Key.KeyA  // KEY_A
    case 1 => Key.KeyS  // KEY_S
    case 2 => Key.KeyD  // KEY_D
    case 3 => Key.KeyF  // KEY_F
    case 5 => Key.KeyG  // KEY_G
    case 4 => Key.KeyH  // KEY_H
    case 38 => Key.KeyJ  // KEY_J
    case 40 => Key.KeyK  // KEY_K
    case 37 => Key.KeyL  // KEY_L
    case 41 => Key.SemiColon  // SEMI_COLON
    case 39 => Key.Quote  // QUOTE
    case 42 => Key.BackSlash  // BACK_SLASH
    case 6 => Key.KeyZ  // KEY_Z
    case 7 => Key.KeyX  // KEY_X
    case 8 => Key.KeyC  // KEY_C
    case 9 => Key.KeyV  // KEY_V
    case 11 => Key.KeyB  // KEY_B
    case 45 => Key.KeyN  // KEY_N
    case 46 => Key.KeyM  // KEY_M
    case 43 => Key.Comma  // COMMA
    case 47 => Key.Dot  // DOT
    case 44 => Key.Slash  // SLASH
    case 63 => Key.Function  // FUNCTION
    case _ => Key.Unknown(code)
  }

  /** The keys of Unmapped have no code; with the `ensures` of CodeFromKey, a named key encodes exactly when it is not one of them. */
  lemma UnmappedHasNoCode(key: Key)
    requires Unmapped(key)
    ensures CodeFromKey(key).None?
  {
    if key.ControlRight? || key.Delete? || key.End? || key.Home? || key.PageDown?
        || key.PageUp? {
      UnmappedHasNoCode0(key);
    } else if key.PrintScreen? || key.ScrollLock? || key.Pause? || key.NumLock? || key.IntlBackslash?
        || key.Insert? {
      UnmappedHasNoCode1(key);
    } else if key.KpReturn? || key.KpMinus? || key.KpPlus? || key.KpMultiply? || key.KpDivide?
        || key.Kp0? {
      UnmappedHasNoCode2(key);
    } else if key.Kp1? || key.Kp2? || key.Kp3? || key.Kp4? || key.Kp5? || key.Kp6? {
      UnmappedHasNoCode3(key);
    } else if key.Kp7? || key.Kp8? || key.Kp9? || key.KpDelete? || key.VolumeMute? || key.VolumeDown? {
      UnmappedHasNoCode4(key);
    } else {
      UnmappedHasNoCode5(key);
    }
  }

  /** Every keycode survives decoding and re-encoding, the codes that are none of the constants included. */
  lemma CodeRoundTrip(code: u32)
    ensures CodeFromKey(KeyFromCode(code)) == Some(code)
  {
    if code == 58 {
      CodeRoundTripAlt();
    } else if code == 61 {
      CodeRoundTripAltGr();
    } else if code == 51 {
      CodeRoundTripBackspace();
    } else if code == 57 {
      CodeRoundTripCapsLock();
    } else if code == 59 {
      CodeRoundTripControlLeft();
    } else if code == 125 {
      CodeRoundTripDownArrow();
    } else if code == 53 {
      CodeRoundTripEscape();
    } else if code == 122 {
      CodeRoundTripF1();
    } else if code == 109 {
      CodeRoundTripF10();
    } else if code == 103 {
      CodeRoundTripF11();
    } else if code == 111 {
      CodeRoundTripF12();
    } else if code == 120 {
      CodeRoundTripF2();
    } else if code == 99 {
      CodeRoundTripF3();
    } else if code == 118 {
      CodeRoundTripF4();
    } else if code == 96 {
      CodeRoundTripF5();
    } else if code == 97 {
      CodeRoundTripF6();
    } else if code == 98 {
      CodeRoundTripF7();
    } else if code == 100 {
      CodeRoundTripF8();
    } else if code == 101 {
      CodeRoundTripF9();
    } else if code == 123 {
      CodeRoundTripLeftArrow();
    } else if code == 55 {
      CodeRoundTripMetaLeft();
    } else if code == 54 {
      CodeRoundTripMetaRight();
    } else if code == 36 {
      CodeRoundTripReturn();
    } else if code == 124 {
      CodeRoundTripRightArrow();
    } else if code == 56 {
      CodeRoundTripShiftLeft();
    } else if code == 60 {
      CodeRoundTripShiftRight();
    } else if code == 49 {
      CodeRoundTripSpace();
    } else if code == 48 {
      CodeRoundTripTab();
    } else if code == 126 {
      CodeRoundTripUpArrow();
    } else if code == 50 {
      CodeRoundTripBackQuote();
    } else if code == 18 {
      CodeRoundTripNum1();
    } else if code == 19 {
      CodeRoundTripNum2();
    } else if code == 20 {
      CodeRoundTripNum3();
    } else if code == 21 {
      CodeRoundTripNum4();
    } else if code == 23 {
      CodeRoundTripNum5();
    } else if code == 22 {
      CodeRoundTripNum6();
    } else if code == 26 {
      CodeRoundTripNum7();
    } else if code == 28 {
      CodeRoundTripNum8();
    } else if code == 25 {
      CodeRoundTripNum9();
    } else if code == 29 {
      CodeRoundTripNum0();
    } else if code == 27 {
      CodeRoundTripMinus();
    } else if code == 24 {
      CodeRoundTripEqual();
    } else if code == 12 {
      CodeRoundTripKeyQ();
    } else if code == 13 {
      CodeRoundTripKeyW();
    } else if code == 14 {
      CodeRoundTripKeyE();
    } else if code == 15 {
      CodeRoundTripKeyR();
    } else if code == 17 {
      CodeRoundTripKeyT();
    } else if code == 16 {
      CodeRoundTripKeyY();
    } else if code == 32 {
      CodeRoundTripKeyU();
    } else if code == 34 {
      CodeRoundTripKeyI();
    } else if code == 31 {
      CodeRoundTripKeyO();
    } else if code == 35 {
      CodeRoundTripKeyP();
    } else if code == 33 {
      CodeRoundTripLeftBracket();
    } else if code == 30 {
      CodeRoundTripRightBracket();
    } else if code == 0 {
      CodeRoundTripKeyA();
    } else if code == 1 {
      CodeRoundTripKeyS();
    } else if code == 2 {
      CodeRoundTripKeyD();
    } else if code == 3 {
      CodeRoundTripKeyF();
    } else if code == 5 {
      CodeRoundTripKeyG();
    } else if code == 4 {
      CodeRoundTripKeyH();
    } else if code == 38 {
      CodeRoundTripKeyJ();
    } else if code == 40 {
      CodeRoundTripKeyK();
    } else if code == 37 {
      CodeRoundTripKeyL();
    } else if code == 41 {
      CodeRoundTripSemiColon();
    } else if code == 39 {
      CodeRoundTripQuote();
    } else if code == 42 {
      CodeRoundTripBackSlash();
    } else if code == 6 {
      CodeRoundTripKeyZ();
    } else if code == 7 {
      CodeRoundTripKeyX();
    } else if code == 8 {
      CodeRoundTripKeyC();
    } else if code == 9 {
      CodeRoundTripKeyV();
    } else if code == 11 {
      CodeRoundTripKeyB();
    } else if code == 45 {
      CodeRoundTripKeyN();
    } else if code == 46 {
      CodeRoundTripKeyM();
    } else if code == 43 {
      CodeRoundTripComma();
    } else if code == 47 {
      CodeRoundTripDot();
    } else if code == 44 {
      CodeRoundTripSlash();
    } else if code == 63 {
      CodeRoundTripFunction();
    } else {
      assert KeyFromCode(code) == Key.Unknown(code);
    }
  }

  /** Encoding is injective on the named keys: two different named keys never share a code. */
  lemma CodeFromKeyDistinct(k1: Key, k2: Key)
    requires !k1.Unknown? && !k2.Unknown? && k1 != k2
    requires CodeFromKey(k1).Some?
    ensures CodeFromKey(k1) != CodeFromKey(k2)
  {
  }

  /** Decoding is injective: two codes that name the same key are the same code. */
  lemma KeyFromCodeInjective(c1: u32, c2: u32)
    requires KeyFromCode(c1) == KeyFromCode(c2)
    ensures c1 == c2
  {
    CodeRoundTrip(c1);
    CodeRoundTrip(c2);
  }

  /** A keycode that decodes to a named key is below 128, so it survives the cast to the 16-bit
      `CGKeyCode`. */
  lemma NamedCodeIsSmall(c: u32)
    requires !KeyFromCode(c).Unknown?
    ensures c < 128
  {
  }

  // Proof scaffolding. The lemmas below only split the case analysis of the lemmas above
  // into pieces the verifier handles quickly: one per table row, per key or per group, and
  // the chunks that gather them. They state nothing beyond those lemmas.

  lemma HasNoCodeControlRight()
    ensures CodeFromKey(Key.ControlRight).None?
  {
  }

  lemma HasNoCodeDelete()
    ensures CodeFromKey(Key.Delete).None?
  {
  }

  lemma HasNoCodeEnd()
    ensures CodeFromKey(Key.End).None?
  {
  }

  lemma HasNoCodeHome()
    ensures CodeFromKey(Key.Home).None?
  {
  }

  lemma HasNoCodePageDown()
    ensures CodeFromKey(Key.PageDown).None?
  {
  }

  lemma HasNoCodePageUp()
    ensures CodeFromKey(Key.PageUp).None?
  {
  }

  lemma HasNoCodePrintScreen()
    ensures CodeFromKey(Key.PrintScreen).None?
  {
  }

  lemma HasNoCodeScrollLock()
    ensures CodeFromKey(Key.ScrollLock).None?
  {
  }

  lemma HasNoCodePause()
    ensures CodeFromKey(Key.Pause).None?
  {
  }

  lemma HasNoCodeNumLock()
    ensures CodeFromKey(Key.NumLock).None?
  {
  }

  lemma HasNoCodeIntlBackslash()
    ensures CodeFromKey(Key.IntlBackslash).None?
  {
  }

  lemma HasNoCodeInsert()
    ensures CodeFromKey(Key.Insert).None?
  {
  }

  lemma HasNoCodeKpReturn()
    ensures CodeFromKey(Key.KpReturn).None?
  {
  }

  lemma HasNoCodeKpMinus()
    ensures CodeFromKey(Key.KpMinus).None?
  {
  }

  lemma HasNoCodeKpPlus()
    ensures CodeFromKey(Key.KpPlus).None?
  {
  }

  lemma HasNoCodeKpMultiply()
    ensures CodeFromKey(Key.KpMultiply).None?
  {
  }

  lemma HasNoCodeKpDivide()
    ensures CodeFromKey(Key.KpDivide).None?
  {
  }

  lemma HasNoCodeKp0()
    ensures CodeFromKey(Key.Kp0).None?
  {
  }

  lemma HasNoCodeKp1()
    ensures CodeFromKey(Key.Kp1).None?
  {
  }

  lemma HasNoCodeKp2()
    ensures CodeFromKey(Key.Kp2).None?
  {
  }

  lemma HasNoCodeKp3()
    ensures CodeFromKey(Key.Kp3).None?
  {
  }

  lemma HasNoCodeKp4()
    ensures CodeFromKey(Key.Kp4).None?
  {
  }

  lemma HasNoCodeKp5()
    ensures CodeFromKey(Key.Kp5).None?
  {
  }

  lemma HasNoCodeKp6()
    ensures CodeFromKey(Key.Kp6).None?
  {
  }

  lemma HasNoCodeKp7()
    ensures CodeFromKey(Key.Kp7).None?
  {
  }

  lemma HasNoCodeKp8()
    ensures CodeFromKey(Key.Kp8).None?
  {
  }

  lemma HasNoCodeKp9()
    ensures CodeFromKey(Key.Kp9).None?
  {
  }

  lemma HasNoCodeKpDelete()
    ensures CodeFromKey(Key.KpDelete).None?
  {
  }

  lemma HasNoCodeVolumeMute()
    ensures CodeFromKey(Key.VolumeMute).None?
  {
  }

  lemma HasNoCodeVolumeDown()
    ensures CodeFromKey(Key.VolumeDown).None?
  {
  }

  lemma HasNoCodeVolumeUp()
    ensures CodeFromKey(Key.VolumeUp).None?
  {
  }

  lemma HasNoCodeNextTrack()
    ensures CodeFromKey(Key.NextTrack).None?
  {
  }

  lemma HasNoCodePlayPause()
    ensures CodeFromKey(Key.PlayPause).None?
  {
  }

  lemma HasNoCodePreviousTrack()
    ensures CodeFromKey(Key.PreviousTrack).None?
  {
  }

  lemma HasNoCodePlayCd()
    ensures CodeFromKey(Key.PlayCd).None?
  {
  }

  /** UnmappedHasNoCode for the keys ControlRight to PageUp. */
  lemma UnmappedHasNoCode0(key: Key)
    requires key.ControlRight? || key.Delete? || key.End? || key.Home? || key.PageDown? || key.PageUp?
    ensures CodeFromKey(key).None?
  {
    if key.ControlRight? {
      HasNoCodeControlRight();
    } else if key.Delete? {
      HasNoCodeDelete();
    } else if key.End? {
      HasNoCodeEnd();
    } else if key.Home? {
      HasNoCodeHome();
    } else if key.PageDown? {
      HasNoCodePageDown();
    } else {
      HasNoCodePageUp();
    }
  }

  /** UnmappedHasNoCode for the keys PrintScreen to Insert. */
  lemma UnmappedHasNoCode1(key: Key)
    requires key.PrintScreen? || key.ScrollLock? || key.Pause? || key.NumLock? || key.IntlBackslash?
      || key.Insert?
    ensures CodeFromKey(key).None?
  {
    if key.PrintScreen? {
      HasNoCodePrintScreen();
    } else if key.ScrollLock? {
      HasNoCodeScrollLock();
    } else if key.Pause? {
      HasNoCodePause();
    } else if key.NumLock? {
      HasNoCodeNumLock();
    } else if key.IntlBackslash? {
      HasNoCodeIntlBackslash();
    } else {
      HasNoCodeInsert();
    }
  }

  /** UnmappedHasNoCode for the keys KpReturn to Kp0. */
  lemma UnmappedHasNoCode2(key: Key)
    requires key.KpReturn? || key.KpMinus? || key.KpPlus? || key.KpMultiply? || key.KpDivide?
      || key.Kp0?
    ensures CodeFromKey(key).None?
  {
    if key.KpReturn? {
      HasNoCodeKpReturn();
    } else if key.KpMinus? {
      HasNoCodeKpMinus();
    } else if key.KpPlus? {
      HasNoCodeKpPlus();
    } else if key.KpMultiply? {
      HasNoCodeKpMultiply();
    } else if key.KpDivide? {
      HasNoCodeKpDivide();
    } else {
      HasNoCodeKp0();
    }
  }

  /** UnmappedHasNoCode for the keys Kp1 to Kp6. */
  lemma UnmappedHasNoCode3(key: Key)
    requires key.Kp1? || key.Kp2? || key.Kp3? || key.Kp4? || key.Kp5? || key.Kp6?
    ensures CodeFromKey(key).None?
  {
    if key.Kp1? {
      HasNoCodeKp1();
    } else if key.Kp2? {
      HasNoCodeKp2();
    } else if key.Kp3? {
      HasNoCodeKp3();
    } else if key.Kp4? {
      HasNoCodeKp4();
    } else if key.Kp5? {
      HasNoCodeKp5();
    } else {
      HasNoCodeKp6();
    }
  }

  /** UnmappedHasNoCode for the keys Kp7 to VolumeDown. */
  lemma UnmappedHasNoCode4(key: Key)
    requires key.Kp7? || key.Kp8? || key.Kp9? || key.KpDelete? || key.VolumeMute? || key.VolumeDown?
    ensures CodeFromKey(key).None?
  {
    if key.Kp7? {
      HasNoCodeKp7();
    } else if key.Kp8? {
      HasNoCodeKp8();
    } else if key.Kp9? {
      HasNoCodeKp9();
    } else if key.KpDelete? {
      HasNoCodeKpDelete();
    } else if key.VolumeMute? {
      HasNoCodeVolumeMute();
    } else {
      HasNoCodeVolumeDown();
    }
  }

  /** UnmappedHasNoCode for the keys VolumeUp to PlayCd. */
  lemma UnmappedHasNoCode5(key: Key)
    requires key.VolumeUp? || key.NextTrack? || key.PlayPause? || key.PreviousTrack? || key.PlayCd?
    ensures CodeFromKey(key).None?
  {
    if key.VolumeUp? {
      HasNoCodeVolumeUp();
    } else if key.NextTrack? {
      HasNoCodeNextTrack();
    } else if key.PlayPause? {
      HasNoCodePlayPause();
    } else if key.PreviousTrack? {
      HasNoCodePreviousTrack();
    } else {
      HasNoCodePlayCd();
    }
  }

  lemma CodeRoundTripAlt()
    ensures CodeFromKey(KeyFromCode(58)) == Some(58)
  {
    assert KeyFromCode(58) == Key.Alt;
  }

  lemma CodeRoundTripAltGr()
    ensures CodeFromKey(KeyFromCode(61)) == Some(61)
  {
    assert KeyFromCode(61) == Key.AltGr;
  }

  lemma CodeRoundTripBackspace()
    ensures CodeFromKey(KeyFromCode(51)) == Some(51)
  {
    assert KeyFromCode(51) == Key.Backspace;
  }

  lemma CodeRoundTripCapsLock()
    ensures CodeFromKey(KeyFromCode(57)) == Some(57)
  {
    assert KeyFromCode(57) == Key.CapsLock;
  }

  lemma CodeRoundTripControlLeft()
    ensures CodeFromKey(KeyFromCode(59)) == Some(59)
  {
    assert KeyFromCode(59) == Key.ControlLeft;
  }

  lemma CodeRoundTripDownArrow()
    ensures CodeFromKey(KeyFromCode(125)) == Some(125)
  {
    assert KeyFromCode(125) == Key.DownArrow;
  }

  lemma CodeRoundTripEscape()
    ensures CodeFromKey(KeyFromCode(53)) == Some(53)
  {
    assert KeyFromCode(53) == Key.Escape;
  }

  lemma CodeRoundTripF1()
    ensures CodeFromKey(KeyFromCode(122)) == Some(122)
  {
    assert KeyFromCode(122) == Key.F1;
  }

  lemma CodeRoundTripF10()
    ensures CodeFromKey(KeyFromCode(109)) == Some(109)
  {
    assert KeyFromCode(109) == Key.F10;
  }

  lemma CodeRoundTripF11()
    ensures CodeFromKey(KeyFromCode(103)) == Some(103)
  {
    assert KeyFromCode(103) == Key.F11;
  }

  lemma CodeRoundTripF12()
    ensures CodeFromKey(KeyFromCode(111)) == Some(111)
  {
    assert KeyFromCode(111) == Key.F12;
  }

  lemma CodeRoundTripF2()
    ensures CodeFromKey(KeyFromCode(120)) == Some(120)
  {
    assert KeyFromCode(120) == Key.F2;
  }

  lemma CodeRoundTripF3()
    ensures CodeFromKey(KeyFromCode(99)) == Some(99)
  {
    assert KeyFromCode(99) == Key.F3;
  }

  lemma CodeRoundTripF4()
    ensures CodeFromKey(KeyFromCode(118)) == Some(118)
  {
    assert KeyFromCode(118) == Key.F4;
  }

  lemma CodeRoundTripF5()
    ensures CodeFromKey(KeyFromCode(96)) == Some(96)
  {
    assert KeyFromCode(96) == Key.F5;
  }

  lemma CodeRoundTripF6()
    ensures CodeFromKey(KeyFromCode(97)) == Some(97)
  {
    assert KeyFromCode(97) == Key.F6;
  }

  lemma CodeRoundTripF7()
    ensures CodeFromKey(KeyFromCode(98)) == Some(98)
  {
    assert KeyFromCode(98) == Key.F7;
  }

  lemma CodeRoundTripF8()
    ensures CodeFromKey(KeyFromCode(100)) == Some(100)
  {
    assert KeyFromCode(100) == Key.F8;
  }

  lemma CodeRoundTripF9()
    ensures CodeFromKey(KeyFromCode(101)) == Some(101)
  {
    assert KeyFromCode(101) == Key.F9;
  }

  lemma CodeRoundTripLeftArrow()
    ensures CodeFromKey(KeyFromCode(123)) == Some(123)
  {
    assert KeyFromCode(123) == Key.LeftArrow;
  }

  lemma CodeRoundTripMetaLeft()
    ensures CodeFromKey(KeyFromCode(55)) == Some(55)
  {
    assert KeyFromCode(55) == Key.MetaLeft;
  }

  lemma CodeRoundTripMetaRight()
    ensures CodeFromKey(KeyFromCode(54)) == Some(54)
  {
    assert KeyFromCode(54) == Key.MetaRight;
  }

  lemma CodeRoundTripReturn()
    ensures CodeFromKey(KeyFromCode(36)) == Some(36)
  {
    assert KeyFromCode(36) == Key.Return;
  }

  lemma CodeRoundTripRightArrow()
    ensures CodeFromKey(KeyFromCode(124)) == Some(124)
  {
    assert KeyFromCode(124) == Key.RightArrow;
  }

  lemma CodeRoundTripShiftLeft()
    ensures CodeFromKey(KeyFromCode(56)) == Some(56)
  {
    assert KeyFromCode(56) == Key.ShiftLeft;
  }

  lemma CodeRoundTripShiftRight()
    ensures CodeFromKey(KeyFromCode(60)) == Some(60)
  {
    assert KeyFromCode(60) == Key.ShiftRight;
  }

  lemma CodeRoundTripSpace()
    ensures CodeFromKey(KeyFromCode(49)) == Some(49)
  {
    assert KeyFromCode(49) == Key.Space;
  }

  lemma CodeRoundTripTab()
    ensures CodeFromKey(KeyFromCode(48)) == Some(48)
  {
    assert KeyFromCode(48) == Key.Tab;
  }

  lemma CodeRoundTripUpArrow()
    ensures CodeFromKey(KeyFromCode(126)) == Some(126)
  {
    assert KeyFromCode(126) == Key.UpArrow;
  }

  lemma CodeRoundTripBackQuote()
    ensures CodeFromKey(KeyFromCode(50)) == Some(50)
  {
    assert KeyFromCode(50) == Key.BackQuote;
  }

  lemma CodeRoundTripNum1()
    ensures CodeFromKey(KeyFromCode(18)) == Some(18)
  {
    assert KeyFromCode(18) == Key.Num1;
  }

  lemma CodeRoundTripNum2()
    ensures CodeFromKey(KeyFromCode(19)) == Some(19)
  {
    assert KeyFromCode(19) == Key.Num2;
  }

  lemma CodeRoundTripNum3()
    ensures CodeFromKey(KeyFromCode(20)) == Some(20)
  {
    assert KeyFromCode(20) == Key.Num3;
  }

  lemma CodeRoundTripNum4()
    ensures CodeFromKey(KeyFromCode(21)) == Some(21)
  {
    assert KeyFromCode(21) == Key.Num4;
  }

  lemma CodeRoundTripNum5()
    ensures CodeFromKey(KeyFromCode(23)) == Some(23)
  {
    assert KeyFromCode(23) == Key.Num5;
  }

  lemma CodeRoundTripNum6()
    ensures CodeFromKey(KeyFromCode(22)) == Some(22)
  {
    assert KeyFromCode(22) == Key.Num6;
  }

  lemma CodeRoundTripNum7()
    ensures CodeFromKey(KeyFromCode(26)) == Some(26)
  {
    assert KeyFromCode(26) == Key.Num7;
  }

  lemma CodeRoundTripNum8()
    ensures CodeFromKey(KeyFromCode(28)) == Some(28)
  {
    assert KeyFromCode(28) == Key.Num8;
  }

  lemma CodeRoundTripNum9()
    ensures CodeFromKey(KeyFromCode(25)) == Some(25)
  {
    assert KeyFromCode(25) == Key.Num9;
  }

  lemma CodeRoundTripNum0()
    ensures CodeFromKey(KeyFromCode(29)) == Some(29)
  {
    assert KeyFromCode(29) == Key.Num0;
  }

  lemma CodeRoundTripMinus()
    ensures CodeFromKey(KeyFromCode(27)) == Some(27)
  {
    assert KeyFromCode(27) == Key.Minus;
  }

  lemma CodeRoundTripEqual()
    ensures CodeFromKey(KeyFromCode(24)) == Some(24)
  {
    assert KeyFromCode(24) == Key.Equal;
  }

  lemma CodeRoundTripKeyQ()
    ensures CodeFromKey(KeyFromCode(12)) == Some(12)
  {
    assert KeyFromCode(12) == Key.KeyQ;
  }

  lemma CodeRoundTripKeyW()
    ensures CodeFromKey(KeyFromCode(13)) == Some(13)
  {
    assert KeyFromCode(13) == Key.KeyW;
  }

  lemma CodeRoundTripKeyE()
    ensures CodeFromKey(KeyFromCode(14)) == Some(14)
  {
    assert KeyFromCode(14) == Key.KeyE;
  }

  lemma CodeRoundTripKeyR()
    ensures CodeFromKey(KeyFromCode(15)) == Some(15)
  {
    assert KeyFromCode(15) == Key.KeyR;
  }

  lemma CodeRoundTripKeyT()
    ensures CodeFromKey(KeyFromCode(17)) == Some(17)
  {
    assert KeyFromCode(17) == Key.KeyT;
  }

  lemma CodeRoundTripKeyY()
    ensures CodeFromKey(KeyFromCode(16)) == Some(16)
  {
    assert KeyFromCode(16) == Key.KeyY;
  }

  lemma CodeRoundTripKeyU()
    ensures CodeFromKey(KeyFromCode(32)) == Some(32)
  {
    assert KeyFromCode(32) == Key.KeyU;
  }

  lemma CodeRoundTripKeyI()
    ensures CodeFromKey(KeyFromCode(34)) == Some(34)
  {
    assert KeyFromCode(34) == Key.KeyI;
  }

  lemma CodeRoundTripKeyO()
    ensures CodeFromKey(KeyFromCode(31)) == Some(31)
  {
    assert KeyFromCode(31) == Key.KeyO;
  }

  lemma CodeRoundTripKeyP()
    ensures CodeFromKey(KeyFromCode(35)) == Some(35)
  {
    assert KeyFromCode(35) == Key.KeyP;
  }

  lemma CodeRoundTripLeftBracket()
    ensures CodeFromKey(KeyFromCode(33)) == Some(33)
  {
    assert KeyFromCode(33) == Key.LeftBracket;
  }

  lemma CodeRoundTripRightBracket()
    ensures CodeFromKey(KeyFromCode(30)) == Some(30)
  {
    assert KeyFromCode(30) == Key.RightBracket;
  }

  lemma CodeRoundTripKeyA()
    ensures CodeFromKey(KeyFromCode(0)) == Some(0)
  {
    assert KeyFromCode(0) == Key.KeyA;
  }

  lemma CodeRoundTripKeyS()
    ensures CodeFromKey(KeyFromCode(1)) == Some(1)
  {
    assert KeyFromCode(1) == Key.KeyS;
  }

  lemma CodeRoundTripKeyD()
    ensures CodeFromKey(KeyFromCode(2)) == Some(2)
  {
    assert KeyFromCode(2) == Key.KeyD;
  }

  lemma CodeRoundTripKeyF()
    ensures CodeFromKey(KeyFromCode(3)) == Some(3)
  {
    assert KeyFromCode(3) == Key.KeyF;
  }

  lemma CodeRoundTripKeyG()
    ensures CodeFromKey(KeyFromCode(5)) == Some(5)
  {
    assert KeyFromCode(5) == Key.KeyG;
  }

  lemma CodeRoundTripKeyH()
    ensures CodeFromKey(KeyFromCode(4)) == Some(4)
  {
    assert KeyFromCode(4) == Key.KeyH;
  }

  lemma CodeRoundTripKeyJ()
    ensures CodeFromKey(KeyFromCode(38)) == Some(38)
  {
    assert KeyFromCode(38) == Key.KeyJ;
  }

  lemma CodeRoundTripKeyK()
    ensures CodeFromKey(KeyFromCode(40)) == Some(40)
  {
    assert KeyFromCode(40) == Key.KeyK;
  }

  lemma CodeRoundTripKeyL()
    ensures CodeFromKey(KeyFromCode(37)) == Some(37)
  {
    assert KeyFromCode(37) == Key.KeyL;
  }

  lemma CodeRoundTripSemiColon()
    ensures CodeFromKey(KeyFromCode(41)) == Some(41)
  {
    assert KeyFromCode(41) == Key.SemiColon;
  }

  lemma CodeRoundTripQuote()
    ensures CodeFromKey(KeyFromCode(39)) == Some(39)
  {
    assert KeyFromCode(39) == Key.Quote;
  }

  lemma CodeRoundTripBackSlash()
    ensures CodeFromKey(KeyFromCode(42)) == Some(42)
  {
    assert KeyFromCode(42) == Key.BackSlash;
  }

  lemma CodeRoundTripKeyZ()
    ensures CodeFromKey(KeyFromCode(6)) == Some(6)
  {
    assert KeyFromCode(6) == Key.KeyZ;
  }

  lemma CodeRoundTripKeyX()
    ensures CodeFromKey(KeyFromCode(7)) == Some(7)
  {
    assert KeyFromCode(7) == Key.KeyX;
  }

  lemma CodeRoundTripKeyC()
    ensures CodeFromKey(KeyFromCode(8)) == Some(8)
  {
    assert KeyFromCode(8) == Key.KeyC;
  }

  lemma CodeRoundTripKeyV()
    ensures CodeFromKey(KeyFromCode(9)) == Some(9)
  {
    assert KeyFromCode(9) == Key.KeyV;
  }

  lemma CodeRoundTripKeyB()
    ensures CodeFromKey(KeyFromCode(11)) == Some(11)
  {
    assert KeyFromCode(11) == Key.KeyB;
  }

  lemma CodeRoundTripKeyN()
    ensures CodeFromKey(KeyFromCode(45)) == Some(45)
  {
    assert KeyFromCode(45) == Key.KeyN;
  }

  lemma CodeRoundTripKeyM()
    ensures CodeFromKey(KeyFromCode(46)) == Some(46)
  {
    assert KeyFromCode(46) == Key.KeyM;
  }

  lemma CodeRoundTripComma()
    ensures CodeFromKey(KeyFromCode(43)) == Some(43)
  {
    assert KeyFromCode(43) == Key.Comma;
  }

  lemma CodeRoundTripDot()
    ensures CodeFromKey(KeyFromCode(47)) == Some(47)
  {
    assert KeyFromCode(47) == Key.Dot;
  }

  lemma CodeRoundTripSlash()
    ensures CodeFromKey(KeyFromCode(44)) == Some(44)
  {
    assert KeyFromCode(44) == Key.Slash;
  }

  lemma CodeRoundTripFunction()
    ensures CodeFromKey(KeyFromCode(63)) == Some(63)
  {
    assert KeyFromCode(63) == Key.Function;
  }
}
