/** Win32 virtual-key codes: the table of src/windows/keycodes.rs. Codes are 16-bit `WORD`s. */
module WinKeycodes {
  import opened Ints
  import opened Wrappers
  import opened Rdev

  /** The named keys that have no code in the table. */
  predicate Unmapped(key: Key)
  {
    key.MetaRight? || key.KpReturn? || key.Function? || key.VolumeMute? || key.VolumeDown?
    || key.VolumeUp? || key.NextTrack? || key.PlayPause? || key.PreviousTrack? || key.PlayCd?
  }

  /** `code_from_key`: the table's code for a named key, the code carried by `Unknown` when it fits in 16 bits (`try_into`), and nothing for the
      named keys the table leaves out. A named key's code decodes back to it. */
  function CodeFromKey(key: Key): (r: Option<u16>)
    ensures !key.Unknown? && r.Some? ==> KeyFromCode(r.value) == key
    ensures !key.Unknown? && r.None? ==> Unmapped(key)
  {
    match key
    case Alt => Some(164)
    case AltGr => Some(165)
    case Backspace => Some(8)
    case CapsLock => Some(20)
    case ControlLeft => Some(162)
    case ControlRight => Some(163)
    case Delete => Some(46)
    case DownArrow => Some(40)
    case End => Some(35)
    case Escape => Some(27)
    case F1 => Some(112)
    case F10 => Some(121)
    case F11 => Some(122)
    case F12 => Some(123)
    case F2 => Some(113)
    case F3 => Some(114)
    case F4 => Some(115)
    case F5 => Some(116)
    case F6 => Some(117)
    case F7 => Some(118)
    case F8 => Some(119)
    case F9 => Some(120)
    case Home => Some(36)
    case LeftArrow => Some(37)
    case MetaLeft => Some(91)
    case PageDown => Some(34)
    case PageUp => Some(33)
    case Return => Some(13)
    case RightArrow => Some(39)
    case ShiftLeft => Some(160)
    case ShiftRight => Some(161)
    case Space => Some(32)
    case Tab => Some(9)
    case UpArrow => Some(38)
    case PrintScreen => Some(44)
    case ScrollLock => Some(145)
    case Pause => Some(19)
    case NumLock => Some(144)
    case BackQuote => Some(192)
    case Num1 => Some(49)
    case Num2 => Some(50)
    case Num3 => Some(51)
    case Num4 => Some(52)
    case Num5 => Some(53)
    case Num6 => Some(54)
    case Num7 => Some(55)
    case Num8 => Some(56)
    case Num9 => Some(57)
    case Num0 => Some(48)
    case Minus => Some(189)
    case Equal => Some(187)
    case KeyQ => Some(81)
    case KeyW => Some(87)
    case KeyE => Some(69)
    case KeyR => Some(82)
    case KeyT => Some(84)
    case KeyY => Some(89)
    case KeyU => Some(85)
    case KeyI => Some(73)
    case KeyO => Some(79)
    case KeyP => Some(80)
    case LeftBracket => Some(219)
    case RightBracket => Some(221)
    case KeyA => Some(65)
    case KeyS => Some(83)
    case KeyD => Some(68)
    case KeyF => Some(70)
    case KeyG => Some(71)
    case KeyH => Some(72)
    case KeyJ => Some(74)
    case KeyK => Some(75)
    case KeyL => Some(76)
    case SemiColon => Some(186)
    case Quote => Some(222)
    case BackSlash => Some(220)
    case IntlBackslash => Some(226)
    case KeyZ => Some(90)
    case KeyX => Some(88)
    case KeyC => Some(67)
    case KeyV => Some(86)
    case KeyB => Some(66)
    case KeyN => Some(78)
    case KeyM => Some(77)
    case Comma => Some(188)
    case Dot => Some(190)
    case Slash => Some(191)
    case Insert => Some(45)
    case KpMinus => Some(109)
    case KpPlus => Some(107)
    case KpMultiply => Some(106)
    case KpDivide => Some(111)
    case Kp0 => Some(96)
    case Kp1 => Some(97)
    case Kp2 => Some(98)
    case Kp3 => Some(99)
    case Kp4 => Some(100)
    case Kp5 => Some(101)
    case Kp6 => Some(102)
    case Kp7 => Some(103)
    case Kp8 => Some(104)
    case Kp9 => Some(105)
    case KpDelete => Some(110)
    case Unknown(code) => if code < TWO_16 then Some(code) else None
    case MetaRight | KpReturn | Function | VolumeMute | VolumeDown | VolumeUp | NextTrack | PlayPause | PreviousTrack | PlayCd => None
  }

  /** `key_from_code`: total; a code outside the table is `Unknown`, carrying the code. */
  function KeyFromCode(code: u16): (key: Key)
    ensures key.Unknown? ==> key.code == code
  {
    match code
    case 164 => Key.Alt
    case 165 => Key.AltGr
    case 8 => Key.Backspace
    case 20 => Key.CapsLock
    case 162 => Key.ControlLeft
    case 163 => Key.ControlRight
    case 46 => Key.Delete
    case 40 => Key.DownArrow
    case 35 => Key.End
    case 27 => Key.Escape
    case 112 => Key.F1
    case 121 => Key.F10
    case 122 => Key.F11
    case 123 => Key.F12
    case 113 => Key.F2
    case 114 => Key.F3
    case 115 => Key.F4
    case 116 => Key.F5
    case 117 => Key.F6
    case 118 => Key.F7
    case 119 => Key.F8
    case 120 => Key.F9
    case 36 => Key.Home
    case 37 => Key.LeftArrow
    case 91 => Key.MetaLeft
    case 34 => Key.PageDown
    case 33 => Key.PageUp
    case 13 => Key.Return
    case 39 => Key.RightArrow
    case 160 => Key.ShiftLeft
    case 161 => Key.ShiftRight
    case 32 => Key.Space
    case 9 => Key.Tab
    case 38 => Key.UpArrow
    case 44 => Key.PrintScreen
    case 145 => Key.ScrollLock
    case 19 => Key.Pause
    case 144 => Key.NumLock
    case 192 => Key.BackQuote
    case 49 => Key.Num1
    case 50 => Key.Num2
    case 51 => Key.Num3
    case 52 => Key.Num4
    case 53 => Key.Num5
    case 54 => Key.Num6
    case 55 => Key.Num7
    case 56 => Key.Num8
    case 57 => Key.Num9
    case 48 => Key.Num0
    case 189 => Key.Minus
    case 187 => Key.Equal
    case 81 => Key.KeyQ
    case 87 => Key.KeyW
    case 69 => Key.KeyE
    case 82 => Key.KeyR
    case 84 => Key.KeyT
    case 89 => Key.KeyY
    case 85 => Key.KeyU
    case 73 => Key.KeyI
    case 79 => Key.KeyO
    case 80 => Key.KeyP
    case 219 => Key.LeftBracket
    case 221 => Key.RightBracket
    case 65 => Key.KeyA
    case 83 => Key.KeyS
    case 68 => Key.KeyD
    case 70 => Key.KeyF
    case 71 => Key.KeyG
    case 72 => Key.KeyH
    case 74 => Key.KeyJ
    case 75 => Key.KeyK
    case 76 => Key.KeyL
    case 186 => Key.SemiColon
    case 222 => Key.Quote
    case 220 => Key.BackSlash
    case 226 => Key.IntlBackslash
    case 90 => Key.KeyZ
    case 88 => Key.KeyX
    case 67 => Key.KeyC
    case 86 => Key.KeyV
    case 66 => Key.KeyB
    case 78 => Key.KeyN
    case 77 => Key.KeyM
    case 188 => Key.Comma
    case 190 => Key.Dot
    case 191 => Key.Slash
    case 45 => Key.Insert
    case 109 => Key.KpMinus
    case 107 => Key.KpPlus
    case 106 => Key.KpMultiply
    case 111 => Key.KpDivide
    case 96 => Key.Kp0
    case 97 => Key.Kp1
    case 98 => Key.Kp2
    case 99 => Key.Kp3
    case 100 => Key.Kp4
    case 101 => Key.Kp5
    case 102 => Key.Kp6
    case 103 => Key.Kp7
    case 104 => Key.Kp8
    case 105 => Key.Kp9
    case 110 => Key.KpDelete
    case _ => Key.Unknown(code)
  }

  /** `Unknown(c)` encodes to `c` when `c` fits in a `WORD`, and to nothing otherwise. */
  lemma UnknownCode(c: u32)
    ensures c < TWO_16 ==> CodeFromKey(Key.Unknown(c)) == Some(c)
    ensures c >= TWO_16 ==> CodeFromKey(Key.Unknown(c)) == None
  {
  }

  /** The keys of Unmapped have no code; with the `ensures` of CodeFromKey, a named key encodes
      exactly when it is not one of them. */
  lemma UnmappedHasNoCode(key: Key)
    requires Unmapped(key)
    ensures CodeFromKey(key).None?
  {
    if key.MetaRight? || key.KpReturn? || key.Function? || key.VolumeMute? || key.VolumeDown? || key.VolumeUp? {
      UnmappedHasNoCode0(key);
    } else {
      UnmappedHasNoCode1(key);
    }
  }

  /** Every code survives decoding and re-encoding, the codes outside the table included. */
  lemma CodeRoundTrip(code: u16)
    ensures CodeFromKey(KeyFromCode(code)) == Some(code)
  {
    if code == 164 {
      CodeRoundTripAlt();
    } else if code == 165 {
      CodeRoundTripAltGr();
    } else if code == 8 {
      CodeRoundTripBackspace();
    } else if code == 20 {
      CodeRoundTripCapsLock();
    } else if code == 162 {
      CodeRoundTripControlLeft();
    } else if code == 163 {
      CodeRoundTripControlRight();
    } else if code == 46 {
      CodeRoundTripDelete();
    } else if code == 40 {
      CodeRoundTripDownArrow();
    } else if code == 35 {
      CodeRoundTripEnd();
    } else if code == 27 {
      CodeRoundTripEscape();
    } else if code == 112 {
      CodeRoundTripF1();
    } else if code == 121 {
      CodeRoundTripF10();
    } else if code == 122 {
      CodeRoundTripF11();
    } else if code == 123 {
      CodeRoundTripF12();
    } else if code == 113 {
      CodeRoundTripF2();
    } else if code == 114 {
      CodeRoundTripF3();
    } else if code == 115 {
      CodeRoundTripF4();
    } else if code == 116 {
      CodeRoundTripF5();
    } else if code == 117 {
      CodeRoundTripF6();
    } else if code == 118 {
      CodeRoundTripF7();
    } else if code == 119 {
      CodeRoundTripF8();
    } else if code == 120 {
      CodeRoundTripF9();
    } else if code == 36 {
      CodeRoundTripHome();
    } else if code == 37 {
      CodeRoundTripLeftArrow();
    } else if code == 91 {
      CodeRoundTripMetaLeft();
    } else if code == 34 {
      CodeRoundTripPageDown();
    } else if code == 33 {
      CodeRoundTripPageUp();
    } else if code == 13 {
      CodeRoundTripReturn();
    } else if code == 39 {
      CodeRoundTripRightArrow();
    } else if code == 160 {
      CodeRoundTripShiftLeft();
    } else if code == 161 {
      CodeRoundTripShiftRight();
    } else if code == 32 {
      CodeRoundTripSpace();
    } else if code == 9 {
      CodeRoundTripTab();
    } else if code == 38 {
      CodeRoundTripUpArrow();
    } else if code == 44 {
      CodeRoundTripPrintScreen();
    } else if code == 145 {
      CodeRoundTripScrollLock();
    } else if code == 19 {
      CodeRoundTripPause();
    } else if code == 144 {
      CodeRoundTripNumLock();
    } else if code == 192 {
      CodeRoundTripBackQuote();
    } else if code == 49 {
      CodeRoundTripNum1();
    } else if code == 50 {
      CodeRoundTripNum2();
    } else if code == 51 {
      CodeRoundTripNum3();
    } else if code == 52 {
      CodeRoundTripNum4();
    } else if code == 53 {
      CodeRoundTripNum5();
    } else if code == 54 {
      CodeRoundTripNum6();
    } else if code == 55 {
      CodeRoundTripNum7();
    } else if code == 56 {
      CodeRoundTripNum8();
    } else if code == 57 {
      CodeRoundTripNum9();
    } else if code == 48 {
      CodeRoundTripNum0();
    } else if code == 189 {
      CodeRoundTripMinus();
    } else if code == 187 {
      CodeRoundTripEqual();
    } else if code == 81 {
      CodeRoundTripKeyQ();
    } else if code == 87 {
      CodeRoundTripKeyW();
    } else if code == 69 {
      CodeRoundTripKeyE();
    } else if code == 82 {
      CodeRoundTripKeyR();
    } else if code == 84 {
      CodeRoundTripKeyT();
    } else if code == 89 {
      CodeRoundTripKeyY();
    } else if code == 85 {
      CodeRoundTripKeyU();
    } else if code == 73 {
      CodeRoundTripKeyI();
    } else if code == 79 {
      CodeRoundTripKeyO();
    } else if code == 80 {
      CodeRoundTripKeyP();
    } else if code == 219 {
      CodeRoundTripLeftBracket();
    } else if code == 221 {
      CodeRoundTripRightBracket();
    } else if code == 65 {
      CodeRoundTripKeyA();
    } else if code == 83 {
      CodeRoundTripKeyS();
    } else if code == 68 {
      CodeRoundTripKeyD();
    } else if code == 70 {
      CodeRoundTripKeyF();
    } else if code == 71 {
      CodeRoundTripKeyG();
    } else if code == 72 {
      CodeRoundTripKeyH();
    } else if code == 74 {
      CodeRoundTripKeyJ();
    } else if code == 75 {
      CodeRoundTripKeyK();
    } else if code == 76 {
      CodeRoundTripKeyL();
    } else if code == 186 {
      CodeRoundTripSemiColon();
    } else if code == 222 {
      CodeRoundTripQuote();
    } else if code == 220 {
      CodeRoundTripBackSlash();
    } else if code == 226 {
      CodeRoundTripIntlBackslash();
    } else if code == 90 {
      CodeRoundTripKeyZ();
    } else if code == 88 {
      CodeRoundTripKeyX();
    } else if code == 67 {
      CodeRoundTripKeyC();
    } else if code == 86 {
      CodeRoundTripKeyV();
    } else if code == 66 {
      CodeRoundTripKeyB();
    } else if code == 78 {
      CodeRoundTripKeyN();
    } else if code == 77 {
      CodeRoundTripKeyM();
    } else if code == 188 {
      CodeRoundTripComma();
    } else if code == 190 {
      CodeRoundTripDot();
    } else if code == 191 {
      CodeRoundTripSlash();
    } else if code == 45 {
      CodeRoundTripInsert();
    } else if code == 109 {
      CodeRoundTripKpMinus();
    } else if code == 107 {
      CodeRoundTripKpPlus();
    } else if code == 106 {
      CodeRoundTripKpMultiply();
    } else if code == 111 {
      CodeRoundTripKpDivide();
    } else if code == 96 {
      CodeRoundTripKp0();
    } else if code == 97 {
      CodeRoundTripKp1();
    } else if code == 98 {
      CodeRoundTripKp2();
    } else if code == 99 {
      CodeRoundTripKp3();
    } else if code == 100 {
      CodeRoundTripKp4();
    } else if code == 101 {
      CodeRoundTripKp5();
    } else if code == 102 {
      CodeRoundTripKp6();
    } else if code == 103 {
      CodeRoundTripKp7();
    } else if code == 104 {
      CodeRoundTripKp8();
    } else if code == 105 {
      CodeRoundTripKp9();
    } else if code == 110 {
      CodeRoundTripKpDelete();
    } else {
      assert KeyFromCode(code) == Key.Unknown(code);
    }
  }

  /** Encoding is injective on the named keys: two different named keys never share a code. */
  lemma CodeFromKeyDistinct(k1: Key, k2: Key)
    requires !k1.Unknown? && !k2.Unknown? && k1 != k2
    requires CodeFromKey(k1).Some?
    ensures CodeFromKey(k1) != CodeFromKey(k2)
  {
  }

  /** Decoding is injective: two codes that name the same key are the same code. */
  lemma KeyFromCodeInjective(c1: u16, c2: u16)
    requires KeyFromCode(c1) == KeyFromCode(c2)
    ensures c1 == c2
  {
    CodeRoundTrip(c1);
    CodeRoundTrip(c2);
  }

  /** An `Unknown` code that fits in 16 bits comes back as itself exactly when it is not a table code. */
  lemma UnknownRoundTrip(c: u32)
    requires c < TWO_16
    ensures KeyFromCode(CodeFromKey(Key.Unknown(c)).value) == Key.Unknown(c) <==> KeyFromCode(c).Unknown?
  {
    UnknownCode(c);
  }

  // Proof scaffolding. The lemmas below only split the case analysis of the lemmas above
  // into pieces the verifier handles quickly: one per table row, per key or per group, and
  // the chunks that gather them. They state nothing beyond those lemmas.

  lemma HasNoCodeMetaRight()
    ensures CodeFromKey(Key.MetaRight).None?
  {
  }

  lemma HasNoCodeKpReturn()
    ensures CodeFromKey(Key.KpReturn).None?
  {
  }

  lemma HasNoCodeFunction()
    ensures CodeFromKey(Key.Function).None?
  {
  }

  lemma HasNoCodeVolumeMute()
    ensures CodeFromKey(Key.VolumeMute).None?
  {
  }

  lemma HasNoCodeVolumeDown()
    ensures CodeFromKey(Key.VolumeDown).None?
  {
  }

  lemma HasNoCodeVolumeUp()
    ensures CodeFromKey(Key.VolumeUp).None?
  {
  }

  lemma HasNoCodeNextTrack()
    ensures CodeFromKey(Key.NextTrack).None?
  {
  }

  lemma HasNoCodePlayPause()
    ensures CodeFromKey(Key.PlayPause).None?
  {
  }

  lemma HasNoCodePreviousTrack()
    ensures CodeFromKey(Key.PreviousTrack).None?
  {
  }

  lemma HasNoCodePlayCd()
    ensures CodeFromKey(Key.PlayCd).None?
  {
  }

  /** UnmappedHasNoCode for the keys MetaRight to VolumeUp. */
  lemma UnmappedHasNoCode0(key: Key)
    requires key.MetaRight? || key.KpReturn? || key.Function? || key.VolumeMute? || key.VolumeDown? || key.VolumeUp?
    ensures CodeFromKey(key).None?
  {
    if key.MetaRight? {
      HasNoCodeMetaRight();
    } else if key.KpReturn? {
      HasNoCodeKpReturn();
    } else if key.Function? {
      HasNoCodeFunction();
    } else if key.VolumeMute? {
      HasNoCodeVolumeMute();
    } else if key.VolumeDown? {
      HasNoCodeVolumeDown();
    } else {
      HasNoCodeVolumeUp();
    }
  }

  /** UnmappedHasNoCode for the keys NextTrack to PlayCd. */
  lemma UnmappedHasNoCode1(key: Key)
    requires key.NextTrack? || key.PlayPause? || key.PreviousTrack? || key.PlayCd?
    ensures CodeFromKey(key).None?
  {
    if key.NextTrack? {
      HasNoCodeNextTrack();
    } else if key.PlayPause? {
      HasNoCodePlayPause();
    } else if key.PreviousTrack? {
      HasNoCodePreviousTrack();
    } else {
      HasNoCodePlayCd();
    }
  }

  lemma CodeRoundTripAlt()
    ensures CodeFromKey(KeyFromCode(164)) == Some(164)
  {
    assert KeyFromCode(164) == Key.Alt;
  }

  lemma CodeRoundTripAltGr()
    ensures CodeFromKey(KeyFromCode(165)) == Some(165)
  {
    assert KeyFromCode(165) == Key.AltGr;
  }

  lemma CodeRoundTripBackspace()
    ensures CodeFromKey(KeyFromCode(8)) == Some(8)
  {
    assert KeyFromCode(8) == Key.Backspace;
  }

  lemma CodeRoundTripCapsLock()
    ensures CodeFromKey(KeyFromCode(20)) == Some(20)
  {
    assert KeyFromCode(20) == Key.CapsLock;
  }

  lemma CodeRoundTripControlLeft()
    ensures CodeFromKey(KeyFromCode(162)) == Some(162)
  {
    assert KeyFromCode(162) == Key.ControlLeft;
  }

  lemma CodeRoundTripControlRight()
    ensures CodeFromKey(KeyFromCode(163)) == Some(163)
  {
    assert KeyFromCode(163) == Key.ControlRight;
  }

  lemma CodeRoundTripDelete()
    ensures CodeFromKey(KeyFromCode(46)) == Some(46)
  {
    assert KeyFromCode(46) == Key.Delete;
  }

  lemma CodeRoundTripDownArrow()
    ensures CodeFromKey(KeyFromCode(40)) == Some(40)
  {
    assert KeyFromCode(40) == Key.DownArrow;
  }

  lemma CodeRoundTripEnd()
    ensures CodeFromKey(KeyFromCode(35)) == Some(35)
  {
    assert KeyFromCode(35) == Key.End;
  }

  lemma CodeRoundTripEscape()
    ensures CodeFromKey(KeyFromCode(27)) == Some(27)
  {
    assert KeyFromCode(27) == Key.Escape;
  }

  lemma CodeRoundTripF1()
    ensures CodeFromKey(KeyFromCode(112)) == Some(112)
  {
    assert KeyFromCode(112) == Key.F1;
  }

  lemma CodeRoundTripF10()
    ensures CodeFromKey(KeyFromCode(121)) == Some(121)
  {
    assert KeyFromCode(121) == Key.F10;
  }

  lemma CodeRoundTripF11()
    ensures CodeFromKey(KeyFromCode(122)) == Some(122)
  {
    assert KeyFromCode(122) == Key.F11;
  }

  lemma CodeRoundTripF12()
    ensures CodeFromKey(KeyFromCode(123)) == Some(123)
  {
    assert KeyFromCode(123) == Key.F12;
  }

  lemma CodeRoundTripF2()
    ensures CodeFromKey(KeyFromCode(113)) == Some(113)
  {
    assert KeyFromCode(113) == Key.F2;
  }

  lemma CodeRoundTripF3()
    ensures CodeFromKey(KeyFromCode(114)) == Some(114)
  {
    assert KeyFromCode(114) == Key.F3;
  }

  lemma CodeRoundTripF4()
    ensures CodeFromKey(KeyFromCode(115)) == Some(115)
  {
    assert KeyFromCode(115) == Key.F4;
  }

  lemma CodeRoundTripF5()
    ensures CodeFromKey(KeyFromCode(116)) == Some(116)
  {
    assert KeyFromCode(116) == Key.F5;
  }

  lemma CodeRoundTripF6()
    ensures CodeFromKey(KeyFromCode(117)) == Some(117)
  {
    assert KeyFromCode(117) == Key.F6;
  }

  lemma CodeRoundTripF7()
    ensures CodeFromKey(KeyFromCode(118)) == Some(118)
  {
    assert KeyFromCode(118) == Key.F7;
  }

  lemma CodeRoundTripF8()
    ensures CodeFromKey(KeyFromCode(119)) == Some(119)
  {
    assert KeyFromCode(119) == Key.F8;
  }

  lemma CodeRoundTripF9()
    ensures CodeFromKey(KeyFromCode(120)) == Some(120)
  {
    assert KeyFromCode(120) == Key.F9;
  }

  lemma CodeRoundTripHome()
    ensures CodeFromKey(KeyFromCode(36)) == Some(36)
  {
    assert KeyFromCode(36) == Key.Home;
  }

  lemma CodeRoundTripLeftArrow()
    ensures CodeFromKey(KeyFromCode(37)) == Some(37)
  {
    assert KeyFromCode(37) == Key.LeftArrow;
  }

  lemma CodeRoundTripMetaLeft()
    ensures CodeFromKey(KeyFromCode(91)) == Some(91)
  {
    assert KeyFromCode(91) == Key.MetaLeft;
  }

  lemma CodeRoundTripPageDown()
    ensures CodeFromKey(KeyFromCode(34)) == Some(34)
  {
    assert KeyFromCode(34) == Key.PageDown;
  }

  lemma CodeRoundTripPageUp()
    ensures CodeFromKey(KeyFromCode(33)) == Some(33)
  {
    assert KeyFromCode(33) == Key.PageUp;
  }

  lemma CodeRoundTripReturn()
    ensures CodeFromKey(KeyFromCode(13)) == Some(13)
  {
    assert KeyFromCode(13) == Key.Return;
  }

  lemma CodeRoundTripRightArrow()
    ensures CodeFromKey(KeyFromCode(39)) == Some(39)
  {
    assert KeyFromCode(39) == Key.RightArrow;
  }

  lemma CodeRoundTripShiftLeft()
    ensures CodeFromKey(KeyFromCode(160)) == Some(160)
  {
    assert KeyFromCode(160) == Key.ShiftLeft;
  }

  lemma CodeRoundTripShiftRight()
    ensures CodeFromKey(KeyFromCode(161)) == Some(161)
  {
    assert KeyFromCode(161) == Key.ShiftRight;
  }

  lemma CodeRoundTripSpace()
    ensures CodeFromKey(KeyFromCode(32)) == Some(32)
  {
    assert KeyFromCode(32) == Key.Space;
  }

  lemma CodeRoundTripTab()
    ensures CodeFromKey(KeyFromCode(9)) == Some(9)
  {
    assert KeyFromCode(9) == Key.Tab;
  }

  lemma CodeRoundTripUpArrow()
    ensures CodeFromKey(KeyFromCode(38)) == Some(38)
  {
    assert KeyFromCode(38) == Key.UpArrow;
  }

  lemma CodeRoundTripPrintScreen()
    ensures CodeFromKey(KeyFromCode(44)) == Some(44)
  {
    assert KeyFromCode(44) == Key.PrintScreen;
  }

  lemma CodeRoundTripScrollLock()
    ensures CodeFromKey(KeyFromCode(145)) == Some(145)
  {
    assert KeyFromCode(145) == Key.ScrollLock;
  }

  lemma CodeRoundTripPause()
    ensures CodeFromKey(KeyFromCode(19)) == Some(19)
  {
    assert KeyFromCode(19) == Key.Pause;
  }

  lemma CodeRoundTripNumLock()
    ensures CodeFromKey(KeyFromCode(144)) == Some(144)
  {
    assert KeyFromCode(144) == Key.NumLock;
  }

  lemma CodeRoundTripBackQuote()
    ensures CodeFromKey(KeyFromCode(192)) == Some(192)
  {
    assert KeyFromCode(192) == Key.BackQuote;
  }

  lemma CodeRoundTripNum1()
    ensures CodeFromKey(KeyFromCode(49)) == Some(49)
  {
    assert KeyFromCode(49) == Key.Num1;
  }

  lemma CodeRoundTripNum2()
    ensures CodeFromKey(KeyFromCode(50)) == Some(50)
  {
    assert KeyFromCode(50) == Key.Num2;
  }

  lemma CodeRoundTripNum3()
    ensures CodeFromKey(KeyFromCode(51)) == Some(51)
  {
    assert KeyFromCode(51) == Key.Num3;
  }

  lemma CodeRoundTripNum4()
    ensures CodeFromKey(KeyFromCode(52)) == Some(52)
  {
    assert KeyFromCode(52) == Key.Num4;
  }

  lemma CodeRoundTripNum5()
    ensures CodeFromKey(KeyFromCode(53)) == Some(53)
  {
    assert KeyFromCode(53) == Key.Num5;
  }

  lemma CodeRoundTripNum6()
    ensures CodeFromKey(KeyFromCode(54)) == Some(54)
  {
    assert KeyFromCode(54) == Key.Num6;
  }

  lemma CodeRoundTripNum7()
    ensures CodeFromKey(KeyFromCode(55)) == Some(55)
  {
    assert KeyFromCode(55) == Key.Num7;
  }

  lemma CodeRoundTripNum8()
    ensures CodeFromKey(KeyFromCode(56)) == Some(56)
  {
    assert KeyFromCode(56) == Key.Num8;
  }

  lemma CodeRoundTripNum9()
    ensures CodeFromKey(KeyFromCode(57)) == Some(57)
  {
    assert KeyFromCode(57) == Key.Num9;
  }

  lemma CodeRoundTripNum0()
    ensures CodeFromKey(KeyFromCode(48)) == Some(48)
  {
    assert KeyFromCode(48) == Key.Num0;
  }

  lemma CodeRoundTripMinus()
    ensures CodeFromKey(KeyFromCode(189)) == Some(189)
  {
    assert KeyFromCode(189) == Key.Minus;
  }

  lemma CodeRoundTripEqual()
    ensures CodeFromKey(KeyFromCode(187)) == Some(187)
  {
    assert KeyFromCode(187) == Key.Equal;
  }

  lemma CodeRoundTripKeyQ()
    ensures CodeFromKey(KeyFromCode(81)) == Some(81)
  {
    assert KeyFromCode(81) == Key.KeyQ;
  }

  lemma CodeRoundTripKeyW()
    ensures CodeFromKey(KeyFromCode(87)) == Some(87)
  {
    assert KeyFromCode(87) == Key.KeyW;
  }

  lemma CodeRoundTripKeyE()
    ensures CodeFromKey(KeyFromCode(69)) == Some(69)
  {
    assert KeyFromCode(69) == Key.KeyE;
  }

  lemma CodeRoundTripKeyR()
    ensures CodeFromKey(KeyFromCode(82)) == Some(82)
  {
    assert KeyFromCode(82) == Key.KeyR;
  }

  lemma CodeRoundTripKeyT()
    ensures CodeFromKey(KeyFromCode(84)) == Some(84)
  {
    assert KeyFromCode(84) == Key.KeyT;
  }

  lemma CodeRoundTripKeyY()
    ensures CodeFromKey(KeyFromCode(89)) == Some(89)
  {
    assert KeyFromCode(89) == Key.KeyY;
  }

  lemma CodeRoundTripKeyU()
    ensures CodeFromKey(KeyFromCode(85)) == Some(85)
  {
    assert KeyFromCode(85) == Key.KeyU;
  }

  lemma CodeRoundTripKeyI()
    ensures CodeFromKey(KeyFromCode(73)) == Some(73)
  {
    assert KeyFromCode(73) == Key.KeyI;
  }

  lemma CodeRoundTripKeyO()
    ensures CodeFromKey(KeyFromCode(79)) == Some(79)
  {
    assert KeyFromCode(79) == Key.KeyO;
  }

  lemma CodeRoundTripKeyP()
    ensures CodeFromKey(KeyFromCode(80)) == Some(80)
  {
    assert KeyFromCode(80) == Key.KeyP;
  }

  lemma CodeRoundTripLeftBracket()
    ensures CodeFromKey(KeyFromCode(219)) == Some(219)
  {
    assert KeyFromCode(219) == Key.LeftBracket;
  }

  lemma CodeRoundTripRightBracket()
    ensures CodeFromKey(KeyFromCode(221)) == Some(221)
  {
    assert KeyFromCode(221) == Key.RightBracket;
  }

  lemma CodeRoundTripKeyA()
    ensures CodeFromKey(KeyFromCode(65)) == Some(65)
  {
    assert KeyFromCode(65) == Key.KeyA;
  }

  lemma CodeRoundTripKeyS()
    ensures CodeFromKey(KeyFromCode(83)) == Some(83)
  {
    assert KeyFromCode(83) == Key.KeyS;
  }

  lemma CodeRoundTripKeyD()
    ensures CodeFromKey(KeyFromCode(68)) == Some(68)
  {
    assert KeyFromCode(68) == Key.KeyD;
  }

  lemma CodeRoundTripKeyF()
    ensures CodeFromKey(KeyFromCode(70)) == Some(70)
  {
    assert KeyFromCode(70) == Key.KeyF;
  }

  lemma CodeRoundTripKeyG()
    ensures CodeFromKey(KeyFromCode(71)) == Some(71)
  {
    assert KeyFromCode(71) == Key.KeyG;
  }

  lemma CodeRoundTripKeyH()
    ensures CodeFromKey(KeyFromCode(72)) == Some(72)
  {
    assert KeyFromCode(72) == Key.KeyH;
  }

  lemma CodeRoundTripKeyJ()
    ensures CodeFromKey(KeyFromCode(74)) == Some(74)
  {
    assert KeyFromCode(74) == Key.KeyJ;
  }

  lemma CodeRoundTripKeyK()
    ensures CodeFromKey(KeyFromCode(75)) == Some(75)
  {
    assert KeyFromCode(75) == Key.KeyK;
  }

  lemma CodeRoundTripKeyL()
    ensures CodeFromKey(KeyFromCode(76)) == Some(76)
  {
    assert KeyFromCode(76) == Key.KeyL;
  }

  lemma CodeRoundTripSemiColon()
    ensures CodeFromKey(KeyFromCode(186)) == Some(186)
  {
    assert KeyFromCode(186) == Key.SemiColon;
  }

  lemma CodeRoundTripQuote()
    ensures CodeFromKey(KeyFromCode(222)) == Some(222)
  {
    assert KeyFromCode(222) == Key.Quote;
  }

  lemma CodeRoundTripBackSlash()
    ensures CodeFromKey(KeyFromCode(220)) == Some(220)
  {
    assert KeyFromCode(220) == Key.BackSlash;
  }

  lemma CodeRoundTripIntlBackslash()
    ensures CodeFromKey(KeyFromCode(226)) == Some(226)
  {
    assert KeyFromCode(226) == Key.IntlBackslash;
  }

  lemma CodeRoundTripKeyZ()
    ensures CodeFromKey(KeyFromCode(90)) == Some(90)
  {
    assert KeyFromCode(90) == Key.KeyZ;
  }

  lemma CodeRoundTripKeyX()
    ensures CodeFromKey(KeyFromCode(88)) == Some(88)
  {
    assert KeyFromCode(88) == Key.KeyX;
  }

  lemma CodeRoundTripKeyC()
    ensures CodeFromKey(KeyFromCode(67)) == Some(67)
  {
    assert KeyFromCode(67) == Key.KeyC;
  }

  lemma CodeRoundTripKeyV()
    ensures CodeFromKey(KeyFromCode(86)) == Some(86)
  {
    assert KeyFromCode(86) == Key.KeyV;
  }

  lemma CodeRoundTripKeyB()
    ensures CodeFromKey(KeyFromCode(66)) == Some(66)
  {
    assert KeyFromCode(66) == Key.KeyB;
  }

  lemma CodeRoundTripKeyN()
    ensures CodeFromKey(KeyFromCode(78)) == Some(78)
  {
    assert KeyFromCode(78) == Key.KeyN;
  }

  lemma CodeRoundTripKeyM()
    ensures CodeFromKey(KeyFromCode(77)) == Some(77)
  {
    assert KeyFromCode(77) == Key.KeyM;
  }

  lemma CodeRoundTripComma()
    ensures CodeFromKey(KeyFromCode(188)) == Some(188)
  {
    assert KeyFromCode(188) == Key.Comma;
  }

  lemma CodeRoundTripDot()
    ensures CodeFromKey(KeyFromCode(190)) == Some(190)
  {
    assert KeyFromCode(190) == Key.Dot;
  }

  lemma CodeRoundTripSlash()
    ensures CodeFromKey(KeyFromCode(191)) == Some(191)
  {
    assert KeyFromCode(191) == Key.Slash;
  }

  lemma CodeRoundTripInsert()
    ensures CodeFromKey(KeyFromCode(45)) == Some(45)
  {
    assert KeyFromCode(45) == Key.Insert;
  }

  lemma CodeRoundTripKpMinus()
    ensures CodeFromKey(KeyFromCode(109)) == Some(109)
  {
    assert KeyFromCode(109) == Key.KpMinus;
  }

  lemma CodeRoundTripKpPlus()
    ensures CodeFromKey(KeyFromCode(107)) == Some(107)
  {
    assert KeyFromCode(107) == Key.KpPlus;
  }

  lemma CodeRoundTripKpMultiply()
    ensures CodeFromKey(KeyFromCode(106)) == Some(106)
  {
    assert KeyFromCode(106) == Key.KpMultiply;
  }

  lemma CodeRoundTripKpDivide()
    ensures CodeFromKey(KeyFromCode(111)) == Some(111)
  {
    assert KeyFromCode(111) == Key.KpDivide;
  }

  lemma CodeRoundTripKp0()
    ensures CodeFromKey(KeyFromCode(96)) == Some(96)
  {
    assert KeyFromCode(96) == Key.Kp0;
  }

  lemma CodeRoundTripKp1()
    ensures CodeFromKey(KeyFromCode(97)) == Some(97)
  {
    assert KeyFromCode(97) == Key.Kp1;
  }

  lemma CodeRoundTripKp2()
    ensures CodeFromKey(KeyFromCode(98)) == Some(98)
  {
    assert KeyFromCode(98) == Key.Kp2;
  }

  lemma CodeRoundTripKp3()
    ensures CodeFromKey(KeyFromCode(99)) == Some(99)
  {
    assert KeyFromCode(99) == Key.Kp3;
  }

  lemma CodeRoundTripKp4()
    ensures CodeFromKey(KeyFromCode(100)) == Some(100)
  {
    assert KeyFromCode(100) == Key.Kp4;
  }

  lemma CodeRoundTripKp5()
    ensures CodeFromKey(KeyFromCode(101)) == Some(101)
  {
    assert KeyFromCode(101) == Key.Kp5;
  }

  lemma CodeRoundTripKp6()
    ensures CodeFromKey(KeyFromCode(102)) == Some(102)
  {
    assert KeyFromCode(102) == Key.Kp6;
  }

  lemma CodeRoundTripKp7()
    ensures CodeFromKey(KeyFromCode(103)) == Some(103)
  {
    assert KeyFromCode(103) == Key.Kp7;
  }

  lemma CodeRoundTripKp8()
    ensures CodeFromKey(KeyFromCode(104)) == Some(104)
  {
    assert KeyFromCode(104) == Key.Kp8;
  }

  lemma CodeRoundTripKp9()
    ensures CodeFromKey(KeyFromCode(105)) == Some(105)
  {
    assert KeyFromCode(105) == Key.Kp9;
  }

  lemma CodeRoundTripKpDelete()
    ensures CodeFromKey(KeyFromCode(110)) == Some(110)
  {
    assert KeyFromCode(110) == Key.KpDelete;
  }
}
