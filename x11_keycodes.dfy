/** X11 keycodes: the table of src/linux/keycodes.rs. */
module X11Keycodes {
  import opened Ints
  import opened Wrappers
  import opened Rdev

  /** The named keys that have no code in the table. */
  predicate Unmapped(key: Key)
  {
    key.MetaRight? || key.Function? || key.VolumeMute? || key.VolumeDown? || key.VolumeUp?
    || key.NextTrack? || key.PlayPause? || key.PreviousTrack? || key.PlayCd?
  }

  /** `code_from_key`: the table's code for a named key, the code carried by `Unknown`, and nothing for the
      named keys the table leaves out. A named key's code decodes back to it. */
  function CodeFromKey(key: Key): (r: Option<u32>)
    ensures !key.Unknown? && r.Some? ==> KeyFromCode(r.value) == key
    ensures !key.Unknown? && r.None? ==> Unmapped(key)
  {
    match key
    case Alt => Some(64)
    case AltGr => Some(108)
    case Backspace => Some(22)
    case CapsLock => Some(66)
    case ControlLeft => Some(37)
    case ControlRight => Some(105)
    case Delete => Some(119)
    case DownArrow => Some(116)
    case End => Some(115)
    case Escape => Some(9)
    case F1 => Some(67)
    case F10 => Some(76)
    case F11 => Some(95)
    case F12 => Some(96)
    case F2 => Some(68)
    case F3 => Some(69)
    case F4 => Some(70)
    case F5 => Some(71)
    case F6 => Some(72)
    case F7 => Some(73)
    case F8 => Some(74)
    case F9 => Some(75)
    case Home => Some(110)
    case LeftArrow => Some(113)
    case MetaLeft => Some(133)
    case PageDown => Some(117)
    case PageUp => Some(112)
    case Return => Some(36)
    case RightArrow => Some(114)
    case ShiftLeft => Some(50)
    case ShiftRight => Some(62)
    case Space => Some(65)
    case Tab => Some(23)
    case UpArrow => Some(111)
    case PrintScreen => Some(107)
    case ScrollLock => Some(78)
    case Pause => Some(127)
    case NumLock => Some(77)
    case BackQuote => Some(49)
    case Num1 => Some(10)
    case Num2 => Some(11)
    case Num3 => Some(12)
    case Num4 => Some(13)
    case Num5 => Some(14)
    case Num6 => Some(15)
    case Num7 => Some(16)
    case Num8 => Some(17)
    case Num9 => Some(18)
    case Num0 => Some(19)
    case Minus => Some(20)
    case Equal => Some(21)
    case KeyQ => Some(24)
    case KeyW => Some(25)
    case KeyE => Some(26)
    case KeyR => Some(27)
    case KeyT => Some(28)
    case KeyY => Some(29)
    case KeyU => Some(30)
    case KeyI => Some(31)
    case KeyO => Some(32)
    case KeyP => Some(33)
    case LeftBracket => Some(34)
    case RightBracket => Some(35)
    case KeyA => Some(38)
    case KeyS => Some(39)
    case KeyD => Some(40)
    case KeyF => Some(41)
    case KeyG => Some(42)
    case KeyH => Some(43)
    case KeyJ => Some(44)
    case KeyK => Some(45)
    case KeyL => Some(46)
    case SemiColon => Some(47)
    case Quote => Some(48)
    case BackSlash => Some(51)
    case IntlBackslash => Some(94)
    case KeyZ => Some(52)
    case KeyX => Some(53)
    case KeyC => Some(54)
    case KeyV => Some(55)
    case KeyB => Some(56)
    case KeyN => Some(57)
    case KeyM => Some(58)
    case Comma => Some(59)
    case Dot => Some(60)
    case Slash => Some(61)
    case Insert => Some(118)
    case KpReturn => Some(104)
    case KpMinus => Some(82)
    case KpPlus => Some(86)
    case KpMultiply => Some(63)
    case KpDivide => Some(106)
    case Kp0 => Some(90)
    case Kp1 => Some(87)
    case Kp2 => Some(88)
    case Kp3 => Some(89)
    case Kp4 => Some(83)
    case Kp5 => Some(84)
    case Kp6 => Some(85)
    case Kp7 => Some(79)
    case Kp8 => Some(80)
    case Kp9 => Some(81)
    case KpDelete => Some(91)
    case Unknown(code) => Some(code)
    case MetaRight | Function | VolumeMute | VolumeDown | VolumeUp | NextTrack | PlayPause | PreviousTrack | PlayCd => None
  }

  /** `key_from_code`: total; a code outside the table is `Unknown`, carrying the code. */
  function KeyFromCode(code: u32): (key: Key)
    ensures key.Unknown? ==> key.code == code
  {
    match code
    case 64 => Key.Alt
    case 108 => Key.AltGr
    case 22 => Key.Backspace
    case 66 => Key.CapsLock
    case 37 => Key.ControlLeft
    case 105 => Key.ControlRight
    case 119 => Key.Delete
    case 116 => Key.DownArrow
    case 115 => Key.End
    case 9 => Key.Escape
    case 67 => Key.F1
    case 76 => Key.F10
    case 95 => Key.F11
    case 96 => Key.F12
    case 68 => Key.F2
    case 69 => Key.F3
    case 70 => Key.F4
    case 71 => Key.F5
    case 72 => Key.F6
    case 73 => Key.F7
    case 74 => Key.F8
    case 75 => Key.F9
    case 110 => Key.Home
    case 113 => Key.LeftArrow
    case 133 => Key.MetaLeft
    case 117 => Key.PageDown
    case 112 => Key.PageUp
    case 36 => Key.Return
    case 114 => Key.RightArrow
    case 50 => Key.ShiftLeft
    case 62 => Key.ShiftRight
    case 65 => Key.Space
    case 23 => Key.Tab
    case 111 => Key.UpArrow
    case 107 => Key.PrintScreen
    case 78 => Key.ScrollLock
    case 127 => Key.Pause
    case 77 => Key.NumLock
    case 49 => Key.BackQuote
    case 10 => Key.Num1
    case 11 => Key.Num2
    case 12 => Key.Num3
    case 13 => Key.Num4
    case 14 => Key.Num5
    case 15 => Key.Num6
    case 16 => Key.Num7
    case 17 => Key.Num8
    case 18 => Key.Num9
    case 19 => Key.Num0
    case 20 => Key.Minus
    case 21 => Key.Equal
    case 24 => Key.KeyQ
    case 25 => Key.KeyW
    case 26 => Key.KeyE
    case 27 => Key.KeyR
    case 28 => Key.KeyT
    case 29 => Key.KeyY
    case 30 => Key.KeyU
    case 31 => Key.KeyI
    case 32 => Key.KeyO
    case 33 => Key.KeyP
    case 34 => Key.LeftBracket
    case 35 => Key.RightBracket
    case 38 => Key.KeyA
    case 39 => Key.KeyS
    case 40 => Key.KeyD
    case 41 => Key.KeyF
    case 42 => Key.KeyG
    case 43 => Key.KeyH
    case 44 => Key.KeyJ
    case 45 => Key.KeyK
    case 46 => Key.KeyL
    case 47 => Key.SemiColon
    case 48 => Key.Quote
    case 51 => Key.BackSlash
    case 94 => Key.IntlBackslash
    case 52 => Key.KeyZ
    case 53 => Key.KeyX
    case 54 => Key.KeyC
    case 55 => Key.KeyV
    case 56 => Key.KeyB
    case 57 => Key.KeyN
    case 58 => Key.KeyM
    case 59 => Key.Comma
    case 60 => Key.Dot
    case 61 => Key.Slash
    case 118 => Key.Insert
    case 104 => Key.KpReturn
    case 82 => Key.KpMinus
    case 86 => Key.KpPlus
    case 63 => Key.KpMultiply
    case 106 => Key.KpDivide
    case 90 => Key.Kp0
    case 87 => Key.Kp1
    case 88 => Key.Kp2
    case 89 => Key.Kp3
    case 83 => Key.Kp4
    case 84 => Key.Kp5
    case 85 => Key.Kp6
    case 79 => Key.Kp7
    case 80 => Key.Kp8
    case 81 => Key.Kp9
    case 91 => Key.KpDelete
    case _ => Key.Unknown(code)
  }

  /** `Unknown(c)` encodes to `c`. */
  lemma UnknownCode(c: u32)
    ensures CodeFromKey(Key.Unknown(c)) == Some(c)
  {
  }

  /** The keys of Unmapped have no code; with the `ensures` of CodeFromKey, a named key encodes
      exactly when it is not one of them. */
  lemma UnmappedHasNoCode(key: Key)
    requires Unmapped(key)
    ensures CodeFromKey(key).None?
  {
    if key.MetaRight? || key.Function? || key.VolumeMute? || key.VolumeDown? || key.VolumeUp? || key.NextTrack? {
      UnmappedHasNoCode0(key);
    } else {
      UnmappedHasNoCode1(key);
    }
  }

  /** Every code survives decoding and re-encoding, the codes outside the table included. */
  lemma CodeRoundTrip(code: u32)
    ensures CodeFromKey(KeyFromCode(code)) == Some(code)
  {
    if code == 64 {
      CodeRoundTripAlt();
    } else if code == 108 {
      CodeRoundTripAltGr();
    } else if code == 22 {
      CodeRoundTripBackspace();
    } else if code == 66 {
      CodeRoundTripCapsLock();
    } else if code == 37 {
      CodeRoundTripControlLeft();
    } else if code == 105 {
      CodeRoundTripControlRight();
    } else if code == 119 {
      CodeRoundTripDelete();
    } else if code == 116 {
      CodeRoundTripDownArrow();
    } else if code == 115 {
      CodeRoundTripEnd();
    } else if code == 9 {
      CodeRoundTripEscape();
    } else if code == 67 {
      CodeRoundTripF1();
    } else if code == 76 {
      CodeRoundTripF10();
    } else if code == 95 {
      CodeRoundTripF11();
    } else if code == 96 {
      CodeRoundTripF12();
    } else if code == 68 {
      CodeRoundTripF2();
    } else if code == 69 {
      CodeRoundTripF3();
    } else if code == 70 {
      CodeRoundTripF4();
    } else if code == 71 {
      CodeRoundTripF5();
    } else if code == 72 {
      CodeRoundTripF6();
    } else if code == 73 {
      CodeRoundTripF7();
    } else if code == 74 {
      CodeRoundTripF8();
    } else if code == 75 {
      CodeRoundTripF9();
    } else if code == 110 {
      CodeRoundTripHome();
    } else if code == 113 {
      CodeRoundTripLeftArrow();
    } else if code == 133 {
      CodeRoundTripMetaLeft();
    } else if code == 117 {
      CodeRoundTripPageDown();
    } else if code == 112 {
      CodeRoundTripPageUp();
    } else if code == 36 {
      CodeRoundTripReturn();
    } else if code == 114 {
      CodeRoundTripRightArrow();
    } else if code == 50 {
      CodeRoundTripShiftLeft();
    } else if code == 62 {
      CodeRoundTripShiftRight();
    } else if code == 65 {
      CodeRoundTripSpace();
    } else if code == 23 {
      CodeRoundTripTab();
    } else if code == 111 {
      CodeRoundTripUpArrow();
    } else if code == 107 {
      CodeRoundTripPrintScreen();
    } else if code == 78 {
      CodeRoundTripScrollLock();
    } else if code == 127 {
      CodeRoundTripPause();
    } else if code == 77 {
      CodeRoundTripNumLock();
    } else if code == 49 {
      CodeRoundTripBackQuote();
    } else if code == 10 {
      CodeRoundTripNum1();
    } else if code == 11 {
      CodeRoundTripNum2();
    } else if code == 12 {
      CodeRoundTripNum3();
    } else if code == 13 {
      CodeRoundTripNum4();
    } else if code == 14 {
      CodeRoundTripNum5();
    } else if code == 15 {
      CodeRoundTripNum6();
    } else if code == 16 {
      CodeRoundTripNum7();
    } else if code == 17 {
      CodeRoundTripNum8();
    } else if code == 18 {
      CodeRoundTripNum9();
    } else if code == 19 {
      CodeRoundTripNum0();
    } else if code == 20 {
      CodeRoundTripMinus();
    } else if code == 21 {
      CodeRoundTripEqual();
    } else if code == 24 {
      CodeRoundTripKeyQ();
    } else if code == 25 {
      CodeRoundTripKeyW();
    } else if code == 26 {
      CodeRoundTripKeyE();
    } else if code == 27 {
      CodeRoundTripKeyR();
    } else if code == 28 {
      CodeRoundTripKeyT();
    } else if code == 29 {
      CodeRoundTripKeyY();
    } else if code == 30 {
      CodeRoundTripKeyU();
    } else if code == 31 {
      CodeRoundTripKeyI();
    } else if code == 32 {
      CodeRoundTripKeyO();
    } else if code == 33 {
      CodeRoundTripKeyP();
    } else if code == 34 {
      CodeRoundTripLeftBracket();
    } else if code == 35 {
      CodeRoundTripRightBracket();
    } else if code == 38 {
      CodeRoundTripKeyA();
    } else if code == 39 {
      CodeRoundTripKeyS();
    } else if code == 40 {
      CodeRoundTripKeyD();
    } else if code == 41 {
      CodeRoundTripKeyF();
    } else if code == 42 {
      CodeRoundTripKeyG();
    } else if code == 43 {
      CodeRoundTripKeyH();
    } else if code == 44 {
      CodeRoundTripKeyJ();
    } else if code == 45 {
      CodeRoundTripKeyK();
    } else if code == 46 {
      CodeRoundTripKeyL();
    } else if code == 47 {
      CodeRoundTripSemiColon();
    } else if code == 48 {
      CodeRoundTripQuote();
    } else if code == 51 {
      CodeRoundTripBackSlash();
    } else if code == 94 {
      CodeRoundTripIntlBackslash();
    } else if code == 52 {
      CodeRoundTripKeyZ();
    } else if code == 53 {
      CodeRoundTripKeyX();
    } else if code == 54 {
      CodeRoundTripKeyC();
    } else if code == 55 {
      CodeRoundTripKeyV();
    } else if code == 56 {
      CodeRoundTripKeyB();
    } else if code == 57 {
      CodeRoundTripKeyN();
    } else if code == 58 {
      CodeRoundTripKeyM();
    } else if code == 59 {
      CodeRoundTripComma();
    } else if code == 60 {
      CodeRoundTripDot();
    } else if code == 61 {
      CodeRoundTripSlash();
    } else if code == 118 {
      CodeRoundTripInsert();
    } else if code == 104 {
      CodeRoundTripKpReturn();
    } else if code == 82 {
      CodeRoundTripKpMinus();
    } else if code == 86 {
      CodeRoundTripKpPlus();
    } else if code == 63 {
      CodeRoundTripKpMultiply();
    } else if code == 106 {
      CodeRoundTripKpDivide();
    } else if code == 90 {
      CodeRoundTripKp0();
    } else if code == 87 {
      CodeRoundTripKp1();
    } else if code == 88 {
      CodeRoundTripKp2();
    } else if code == 89 {
      CodeRoundTripKp3();
    } else if code == 83 {
      CodeRoundTripKp4();
    } else if code == 84 {
      CodeRoundTripKp5();
    } else if code == 85 {
      CodeRoundTripKp6();
    } else if code == 79 {
      CodeRoundTripKp7();
    } else if code == 80 {
      CodeRoundTripKp8();
    } else if code == 81 {
      CodeRoundTripKp9();
    } else if code == 91 {
      CodeRoundTripKpDelete();
    } else {
      assert KeyFromCode(code) == Key.Unknown(code);
    }
  }

  /** Encoding is injective on the named keys: two different named keys never share a code. */
  lemma CodeFromKeyDistinct(k1: Key, k2: Key)
    requires !k1.Unknown? && !k2.Unknown? && k1 != k2
    requires CodeFromKey(k1).Some?
    ensures CodeFromKey(k1) != CodeFromKey(k2)
  {
  }

  /** Decoding is injective: two codes that name the same key are the same code. */
  lemma KeyFromCodeInjective(c1: u32, c2: u32)
    requires KeyFromCode(c1) == KeyFromCode(c2)
    ensures c1 == c2
  {
    CodeRoundTrip(c1);
    CodeRoundTrip(c2);
  }

  /** `Unknown(c)` comes back as itself exactly when `c` is not one of the table's codes. */
  lemma UnknownRoundTrip(c: u32)
    ensures KeyFromCode(CodeFromKey(Key.Unknown(c)).value) == Key.Unknown(c) <==> KeyFromCode(c).Unknown?
  {
    UnknownCode(c);
  }

  /** For example `Unknown(9)` encodes to the code of Escape and comes back as Escape. */
  lemma UnknownNineIsEscape()
    ensures KeyFromCode(CodeFromKey(Key.Unknown(9)).value) == Escape
  {
    UnknownCode(9);
    CodeRoundTripEscape();
  }

  /** Every code of the table fits in the byte an X event carries: a code that decodes to a
      named key is below 256. */
  lemma NamedCodeIsByte(c: u32)
    requires !KeyFromCode(c).Unknown?
    ensures c < TWO_8
  {
  }

  // Proof scaffolding. The lemmas below only split the case analysis of the lemmas above
  // into pieces the verifier handles quickly: one per table row, per key or per group, and
  // the chunks that gather them. They state nothing beyond those lemmas.

  lemma HasNoCodeMetaRight()
    ensures CodeFromKey(Key.MetaRight).None?
  {
  }

  lemma HasNoCodeFunction()
    ensures CodeFromKey(Key.Function).None?
  {
  }

  lemma HasNoCodeVolumeMute()
    ensures CodeFromKey(Key.VolumeMute).None?
  {
  }

  lemma HasNoCodeVolumeDown()
    ensures CodeFromKey(Key.VolumeDown).None?
  {
  }

  lemma HasNoCodeVolumeUp()
    ensures CodeFromKey(Key.VolumeUp).None?
  {
  }

  lemma HasNoCodeNextTrack()
    ensures CodeFromKey(Key.NextTrack).None?
  {
  }

  lemma HasNoCodePlayPause()
    ensures CodeFromKey(Key.PlayPause).None?
  {
  }

  lemma HasNoCodePreviousTrack()
    ensures CodeFromKey(Key.PreviousTrack).None?
  {
  }

  lemma HasNoCodePlayCd()
    ensures CodeFromKey(Key.PlayCd).None?
  {
  }

  /** UnmappedHasNoCode for the keys MetaRight to NextTrack. */
  lemma UnmappedHasNoCode0(key: Key)
    requires key.MetaRight? || key.Function? || key.VolumeMute? || key.VolumeDown? || key.VolumeUp? || key.NextTrack?
    ensures CodeFromKey(key).None?
  {
    if key.MetaRight? {
      HasNoCodeMetaRight();
    } else if key.Function? {
      HasNoCodeFunction();
    } else if key.VolumeMute? {
      HasNoCodeVolumeMute();
    } else if key.VolumeDown? {
      HasNoCodeVolumeDown();
    } else if key.VolumeUp? {
      HasNoCodeVolumeUp();
    } else {
      HasNoCodeNextTrack();
    }
  }

  /** UnmappedHasNoCode for the keys PlayPause to PlayCd. */
  lemma UnmappedHasNoCode1(key: Key)
    requires key.PlayPause? || key.PreviousTrack? || key.PlayCd?
    ensures CodeFromKey(key).None?
  {
    if key.PlayPause? {
      HasNoCodePlayPause();
    } else if key.PreviousTrack? {
      HasNoCodePreviousTrack();
    } else {
      HasNoCodePlayCd();
    }
  }

  lemma CodeRoundTripAlt()
    ensures CodeFromKey(KeyFromCode(64)) == Some(64)
  {
    assert KeyFromCode(64) == Key.Alt;
  }

  lemma CodeRoundTripAltGr()
    ensures CodeFromKey(KeyFromCode(108)) == Some(108)
  {
    assert KeyFromCode(108) == Key.AltGr;
  }

  lemma CodeRoundTripBackspace()
    ensures CodeFromKey(KeyFromCode(22)) == Some(22)
  {
    assert KeyFromCode(22) == Key.Backspace;
  }

  lemma CodeRoundTripCapsLock()
    ensures CodeFromKey(KeyFromCode(66)) == Some(66)
  {
    assert KeyFromCode(66) == Key.CapsLock;
  }

  lemma CodeRoundTripControlLeft()
    ensures CodeFromKey(KeyFromCode(37)) == Some(37)
  {
    assert KeyFromCode(37) == Key.ControlLeft;
  }

  lemma CodeRoundTripControlRight()
    ensures CodeFromKey(KeyFromCode(105)) == Some(105)
  {
    assert KeyFromCode(105) == Key.ControlRight;
  }

  lemma CodeRoundTripDelete()
    ensures CodeFromKey(KeyFromCode(119)) == Some(119)
  {
    assert KeyFromCode(119) == Key.Delete;
  }

  lemma CodeRoundTripDownArrow()
    ensures CodeFromKey(KeyFromCode(116)) == Some(116)
  {
    assert KeyFromCode(116) == Key.DownArrow;
  }

  lemma CodeRoundTripEnd()
    ensures CodeFromKey(KeyFromCode(115)) == Some(115)
  {
    assert KeyFromCode(115) == Key.End;
  }

  lemma CodeRoundTripEscape()
    ensures CodeFromKey(KeyFromCode(9)) == Some(9)
  {
    assert KeyFromCode(9) == Key.Escape;
  }

  lemma CodeRoundTripF1()
    ensures CodeFromKey(KeyFromCode(67)) == Some(67)
  {
    assert KeyFromCode(67) == Key.F1;
  }

  lemma CodeRoundTripF10()
    ensures CodeFromKey(KeyFromCode(76)) == Some(76)
  {
    assert KeyFromCode(76) == Key.F10;
  }

  lemma CodeRoundTripF11()
    ensures CodeFromKey(KeyFromCode(95)) == Some(95)
  {
    assert KeyFromCode(95) == Key.F11;
  }

  lemma CodeRoundTripF12()
    ensures CodeFromKey(KeyFromCode(96)) == Some(96)
  {
    assert KeyFromCode(96) == Key.F12;
  }

  lemma CodeRoundTripF2()
    ensures CodeFromKey(KeyFromCode(68)) == Some(68)
  {
    assert KeyFromCode(68) == Key.F2;
  }

  lemma CodeRoundTripF3()
    ensures CodeFromKey(KeyFromCode(69)) == Some(69)
  {
    assert KeyFromCode(69) == Key.F3;
  }

  lemma CodeRoundTripF4()
    ensures CodeFromKey(KeyFromCode(70)) == Some(70)
  {
    assert KeyFromCode(70) == Key.F4;
  }

  lemma CodeRoundTripF5()
    ensures CodeFromKey(KeyFromCode(71)) == Some(71)
  {
    assert KeyFromCode(71) == Key.F5;
  }

  lemma CodeRoundTripF6()
    ensures CodeFromKey(KeyFromCode(72)) == Some(72)
  {
    assert KeyFromCode(72) == Key.F6;
  }

  lemma CodeRoundTripF7()
    ensures CodeFromKey(KeyFromCode(73)) == Some(73)
  {
    assert KeyFromCode(73) == Key.F7;
  }

  lemma CodeRoundTripF8()
    ensures CodeFromKey(KeyFromCode(74)) == Some(74)
  {
    assert KeyFromCode(74) == Key.F8;
  }

  lemma CodeRoundTripF9()
    ensures CodeFromKey(KeyFromCode(75)) == Some(75)
  {
    assert KeyFromCode(75) == Key.F9;
  }

  lemma CodeRoundTripHome()
    ensures CodeFromKey(KeyFromCode(110)) == Some(110)
  {
    assert KeyFromCode(110) == Key.Home;
  }

  lemma CodeRoundTripLeftArrow()
    ensures CodeFromKey(KeyFromCode(113)) == Some(113)
  {
    assert KeyFromCode(113) == Key.LeftArrow;
  }

  lemma CodeRoundTripMetaLeft()
    ensures CodeFromKey(KeyFromCode(133)) == Some(133)
  {
    assert KeyFromCode(133) == Key.MetaLeft;
  }

  lemma CodeRoundTripPageDown()
    ensures CodeFromKey(KeyFromCode(117)) == Some(117)
  {
    assert KeyFromCode(117) == Key.PageDown;
  }

  lemma CodeRoundTripPageUp()
    ensures CodeFromKey(KeyFromCode(112)) == Some(112)
  {
    assert KeyFromCode(112) == Key.PageUp;
  }

  lemma CodeRoundTripReturn()
    ensures CodeFromKey(KeyFromCode(36)) == Some(36)
  {
    assert KeyFromCode(36) == Key.Return;
  }

  lemma CodeRoundTripRightArrow()
    ensures CodeFromKey(KeyFromCode(114)) == Some(114)
  {
    assert KeyFromCode(114) == Key.RightArrow;
  }

  lemma CodeRoundTripShiftLeft()
    ensures CodeFromKey(KeyFromCode(50)) == Some(50)
  {
    assert KeyFromCode(50) == Key.ShiftLeft;
  }

  lemma CodeRoundTripShiftRight()
    ensures CodeFromKey(KeyFromCode(62)) == Some(62)
  {
    assert KeyFromCode(62) == Key.ShiftRight;
  }

  lemma CodeRoundTripSpace()
    ensures CodeFromKey(KeyFromCode(65)) == Some(65)
  {
    assert KeyFromCode(65) == Key.Space;
  }

  lemma CodeRoundTripTab()
    ensures CodeFromKey(KeyFromCode(23)) == Some(23)
  {
    assert KeyFromCode(23) == Key.Tab;
  }

  lemma CodeRoundTripUpArrow()
    ensures CodeFromKey(KeyFromCode(111)) == Some(111)
  {
    assert KeyFromCode(111) == Key.UpArrow;
  }

  lemma CodeRoundTripPrintScreen()
    ensures CodeFromKey(KeyFromCode(107)) == Some(107)
  {
    assert KeyFromCode(107) == Key.PrintScreen;
  }

  lemma CodeRoundTripScrollLock()
    ensures CodeFromKey(KeyFromCode(78)) == Some(78)
  {
    assert KeyFromCode(78) == Key.ScrollLock;
  }

  lemma CodeRoundTripPause()
    ensures CodeFromKey(KeyFromCode(127)) == Some(127)
  {
    assert KeyFromCode(127) == Key.Pause;
  }

  lemma CodeRoundTripNumLock()
    ensures CodeFromKey(KeyFromCode(77)) == Some(77)
  {
    assert KeyFromCode(77) == Key.NumLock;
  }

  lemma CodeRoundTripBackQuote()
    ensures CodeFromKey(KeyFromCode(49)) == Some(49)
  {
    assert KeyFromCode(49) == Key.BackQuote;
  }

  lemma CodeRoundTripNum1()
    ensures CodeFromKey(KeyFromCode(10)) == Some(10)
  {
    assert KeyFromCode(10) == Key.Num1;
  }

  lemma CodeRoundTripNum2()
    ensures CodeFromKey(KeyFromCode(11)) == Some(11)
  {
    assert KeyFromCode(11) == Key.Num2;
  }

  lemma CodeRoundTripNum3()
    ensures CodeFromKey(KeyFromCode(12)) == Some(12)
  {
    assert KeyFromCode(12) == Key.Num3;
  }

  lemma CodeRoundTripNum4()
    ensures CodeFromKey(KeyFromCode(13)) == Some(13)
  {
    assert KeyFromCode(13) == Key.Num4;
  }

  lemma CodeRoundTripNum5()
    ensures CodeFromKey(KeyFromCode(14)) == Some(14)
  {
    assert KeyFromCode(14) == Key.Num5;
  }

  lemma CodeRoundTripNum6()
    ensures CodeFromKey(KeyFromCode(15)) == Some(15)
  {
    assert KeyFromCode(15) == Key.Num6;
  }

  lemma CodeRoundTripNum7()
    ensures CodeFromKey(KeyFromCode(16)) == Some(16)
  {
    assert KeyFromCode(16) == Key.Num7;
  }

  lemma CodeRoundTripNum8()
    ensures CodeFromKey(KeyFromCode(17)) == Some(17)
  {
    assert KeyFromCode(17) == Key.Num8;
  }

  lemma CodeRoundTripNum9()
    ensures CodeFromKey(KeyFromCode(18)) == Some(18)
  {
    assert KeyFromCode(18) == Key.Num9;
  }

  lemma CodeRoundTripNum0()
    ensures CodeFromKey(KeyFromCode(19)) == Some(19)
  {
    assert KeyFromCode(19) == Key.Num0;
  }

  lemma CodeRoundTripMinus()
    ensures CodeFromKey(KeyFromCode(20)) == Some(20)
  {
    assert KeyFromCode(20) == Key.Minus;
  }

  lemma CodeRoundTripEqual()
    ensures CodeFromKey(KeyFromCode(21)) == Some(21)
  {
    assert KeyFromCode(21) == Key.Equal;
  }

  lemma CodeRoundTripKeyQ()
    ensures CodeFromKey(KeyFromCode(24)) == Some(24)
  {
    assert KeyFromCode(24) == Key.KeyQ;
  }

  lemma CodeRoundTripKeyW()
    ensures CodeFromKey(KeyFromCode(25)) == Some(25)
  {
    assert KeyFromCode(25) == Key.KeyW;
  }

  lemma CodeRoundTripKeyE()
    ensures CodeFromKey(KeyFromCode(26)) == Some(26)
  {
    assert KeyFromCode(26) == Key.KeyE;
  }

  lemma CodeRoundTripKeyR()
    ensures CodeFromKey(KeyFromCode(27)) == Some(27)
  {
    assert KeyFromCode(27) == Key.KeyR;
  }

  lemma CodeRoundTripKeyT()
    ensures CodeFromKey(KeyFromCode(28)) == Some(28)
  {
    assert KeyFromCode(28) == Key.KeyT;
  }

  lemma CodeRoundTripKeyY()
    ensures CodeFromKey(KeyFromCode(29)) == Some(29)
  {
    assert KeyFromCode(29) == Key.KeyY;
  }

  lemma CodeRoundTripKeyU()
    ensures CodeFromKey(KeyFromCode(30)) == Some(30)
  {
    assert KeyFromCode(30) == Key.KeyU;
  }

  lemma CodeRoundTripKeyI()
    ensures CodeFromKey(KeyFromCode(31)) == Some(31)
  {
    assert KeyFromCode(31) == Key.KeyI;
  }

  lemma CodeRoundTripKeyO()
    ensures CodeFromKey(KeyFromCode(32)) == Some(32)
  {
    assert KeyFromCode(32) == Key.KeyO;
  }

  lemma CodeRoundTripKeyP()
    ensures CodeFromKey(KeyFromCode(33)) == Some(33)
  {
    assert KeyFromCode(33) == Key.KeyP;
  }

  lemma CodeRoundTripLeftBracket()
    ensures CodeFromKey(KeyFromCode(34)) == Some(34)
  {
    assert KeyFromCode(34) == Key.LeftBracket;
  }

  lemma CodeRoundTripRightBracket()
    ensures CodeFromKey(KeyFromCode(35)) == Some(35)
  {
    assert KeyFromCode(35) == Key.RightBracket;
  }

  lemma CodeRoundTripKeyA()
    ensures CodeFromKey(KeyFromCode(38)) == Some(38)
  {
    assert KeyFromCode(38) == Key.KeyA;
  }

  lemma CodeRoundTripKeyS()
    ensures CodeFromKey(KeyFromCode(39)) == Some(39)
  {
    assert KeyFromCode(39) == Key.KeyS;
  }

  lemma CodeRoundTripKeyD()
    ensures CodeFromKey(KeyFromCode(40)) == Some(40)
  {
    assert KeyFromCode(40) == Key.KeyD;
  }

  lemma CodeRoundTripKeyF()
    ensures CodeFromKey(KeyFromCode(41)) == Some(41)
  {
    assert KeyFromCode(41) == Key.KeyF;
  }

  lemma CodeRoundTripKeyG()
    ensures CodeFromKey(KeyFromCode(42)) == Some(42)
  {
    assert KeyFromCode(42) == Key.KeyG;
  }

  lemma CodeRoundTripKeyH()
    ensures CodeFromKey(KeyFromCode(43)) == Some(43)
  {
    assert KeyFromCode(43) == Key.KeyH;
  }

  lemma CodeRoundTripKeyJ()
    ensures CodeFromKey(KeyFromCode(44)) == Some(44)
  {
    assert KeyFromCode(44) == Key.KeyJ;
  }

  lemma CodeRoundTripKeyK()
    ensures CodeFromKey(KeyFromCode(45)) == Some(45)
  {
    assert KeyFromCode(45) == Key.KeyK;
  }

  lemma CodeRoundTripKeyL()
    ensures CodeFromKey(KeyFromCode(46)) == Some(46)
  {
    assert KeyFromCode(46) == Key.KeyL;
  }

  lemma CodeRoundTripSemiColon()
    ensures CodeFromKey(KeyFromCode(47)) == Some(47)
  {
    assert KeyFromCode(47) == Key.SemiColon;
  }

  lemma CodeRoundTripQuote()
    ensures CodeFromKey(KeyFromCode(48)) == Some(48)
  {
    assert KeyFromCode(48) == Key.Quote;
  }

  lemma CodeRoundTripBackSlash()
    ensures CodeFromKey(KeyFromCode(51)) == Some(51)
  {
    assert KeyFromCode(51) == Key.BackSlash;
  }

  lemma CodeRoundTripIntlBackslash()
    ensures CodeFromKey(KeyFromCode(94)) == Some(94)
  {
    assert KeyFromCode(94) == Key.IntlBackslash;
  }

  lemma CodeRoundTripKeyZ()
    ensures CodeFromKey(KeyFromCode(52)) == Some(52)
  {
    assert KeyFromCode(52) == Key.KeyZ;
  }

  lemma CodeRoundTripKeyX()
    ensures CodeFromKey(KeyFromCode(53)) == Some(53)
  {
    assert KeyFromCode(53) == Key.KeyX;
  }

  lemma CodeRoundTripKeyC()
    ensures CodeFromKey(KeyFromCode(54)) == Some(54)
  {
    assert KeyFromCode(54) == Key.KeyC;
  }

  lemma CodeRoundTripKeyV()
    ensures CodeFromKey(KeyFromCode(55)) == Some(55)
  {
    assert KeyFromCode(55) == Key.KeyV;
  }

  lemma CodeRoundTripKeyB()
    ensures CodeFromKey(KeyFromCode(56)) == Some(56)
  {
    assert KeyFromCode(56) == Key.KeyB;
  }

  lemma CodeRoundTripKeyN()
    ensures CodeFromKey(KeyFromCode(57)) == Some(57)
  {
    assert KeyFromCode(57) == Key.KeyN;
  }

  lemma CodeRoundTripKeyM()
    ensures CodeFromKey(KeyFromCode(58)) == Some(58)
  {
    assert KeyFromCode(58) == Key.KeyM;
  }

  lemma CodeRoundTripComma()
    ensures CodeFromKey(KeyFromCode(59)) == Some(59)
  {
    assert KeyFromCode(59) == Key.Comma;
  }

  lemma CodeRoundTripDot()
    ensures CodeFromKey(KeyFromCode(60)) == Some(60)
  {
    assert KeyFromCode(60) == Key.Dot;
  }

  lemma CodeRoundTripSlash()
    ensures CodeFromKey(KeyFromCode(61)) == Some(61)
  {
    assert KeyFromCode(61) == Key.Slash;
  }

  lemma CodeRoundTripInsert()
    ensures CodeFromKey(KeyFromCode(118)) == Some(118)
  {
    assert KeyFromCode(118) == Key.Insert;
  }

  lemma CodeRoundTripKpReturn()
    ensures CodeFromKey(KeyFromCode(104)) == Some(104)
  {
    assert KeyFromCode(104) == Key.KpReturn;
  }

  lemma CodeRoundTripKpMinus()
    ensures CodeFromKey(KeyFromCode(82)) == Some(82)
  {
    assert KeyFromCode(82) == Key.KpMinus;
  }

  lemma CodeRoundTripKpPlus()
    ensures CodeFromKey(KeyFromCode(86)) == Some(86)
  {
    assert KeyFromCode(86) == Key.KpPlus;
  }

  lemma CodeRoundTripKpMultiply()
    ensures CodeFromKey(KeyFromCode(63)) == Some(63)
  {
    assert KeyFromCode(63) == Key.KpMultiply;
  }

  lemma CodeRoundTripKpDivide()
    ensures CodeFromKey(KeyFromCode(106)) == Some(106)
  {
    assert KeyFromCode(106) == Key.KpDivide;
  }

  lemma CodeRoundTripKp0()
    ensures CodeFromKey(KeyFromCode(90)) == Some(90)
  {
    assert KeyFromCode(90) == Key.Kp0;
  }

  lemma CodeRoundTripKp1()
    ensures CodeFromKey(KeyFromCode(87)) == Some(87)
  {
    assert KeyFromCode(87) == Key.Kp1;
  }

  lemma CodeRoundTripKp2()
    ensures CodeFromKey(KeyFromCode(88)) == Some(88)
  {
    assert KeyFromCode(88) == Key.Kp2;
  }

  lemma CodeRoundTripKp3()
    ensures CodeFromKey(KeyFromCode(89)) == Some(89)
  {
    assert KeyFromCode(89) == Key.Kp3;
  }

  lemma CodeRoundTripKp4()
    ensures CodeFromKey(KeyFromCode(83)) == Some(83)
  {
    assert KeyFromCode(83) == Key.Kp4;
  }

  lemma CodeRoundTripKp5()
    ensures CodeFromKey(KeyFromCode(84)) == Some(84)
  {
    assert KeyFromCode(84) == Key.Kp5;
  }

  lemma CodeRoundTripKp6()
    ensures CodeFromKey(KeyFromCode(85)) == Some(85)
  {
    assert KeyFromCode(85) == Key.Kp6;
  }

  lemma CodeRoundTripKp7()
    ensures CodeFromKey(KeyFromCode(79)) == Some(79)
  {
    assert KeyFromCode(79) == Key.Kp7;
  }

  lemma CodeRoundTripKp8()
    ensures CodeFromKey(KeyFromCode(80)) == Some(80)
  {
    assert KeyFromCode(80) == Key.Kp8;
  }

  lemma CodeRoundTripKp9()
    ensures CodeFromKey(KeyFromCode(81)) == Some(81)
  {
    assert KeyFromCode(81) == Key.Kp9;
  }

  lemma CodeRoundTripKpDelete()
    ensures CodeFromKey(KeyFromCode(91)) == Some(91)
  {
    assert KeyFromCode(91) == Key.KpDelete;
  }
}
