/** The evdev keycodes and the uinput keys of the `Key` enumeration, as the Wayland backend uses them. */
module EvdevKeycodes {
  import opened Ints
  import opened Wrappers
  import opened Rdev

  /** The named keys that have no evdev keycode. */
  predicate Unmapped(key: Key)
  {
    key.MetaRight?
  }

  /** The evdev keycode of a key: a raw `Unknown` code is passed through, and the named keys without a keycode have none. */
  function CodeFromKey(key: Key): (r: Option<u32>)
    ensures !key.Unknown? && r.Some? ==> KeyFromCode(r.value) == key
    ensures !key.Unknown? && r.None? ==> Unmapped(key)
  {
    match key
    case Alt => Some(56)
    case AltGr => Some(126)
    case Backspace => Some(14)
    case CapsLock => Some(58)
    case ControlLeft => Some(29)
    case ControlRight => Some(97)
    case Delete => Some(110)
    case DownArrow => Some(108)
    case End => Some(107)
    case Escape => Some(1)
    case F1 => Some(59)
    case F2 => Some(60)
    case F3 => Some(61)
    case F4 => Some(62)
    case F5 => Some(63)
    case F6 => Some(64)
    case F7 => Some(65)
    case F8 => Some(66)
    case F9 => Some(67)
    case F10 => Some(68)
    case F11 => Some(87)
    case F12 => Some(88)
    case Home => Some(102)
    case LeftArrow => Some(105)
    case MetaLeft => Some(125)
    case PageDown => Some(109)
    case PageUp => Some(104)
    case Return => Some(28)
    case RightArrow => Some(106)
    case ShiftLeft => Some(42)
    case ShiftRight => Some(54)
    case Space => Some(57)
    case Tab => Some(15)
    case UpArrow => Some(103)
    case PrintScreen => Some(99)
    case ScrollLock => Some(70)
    case Pause => Some(119)
    case NumLock => Some(69)
    case BackQuote => Some(41)
    case Num1 => Some(2)
    case Num2 => Some(3)
    case Num3 => Some(4)
    case Num4 => Some(5)
    case Num5 => Some(6)
    case Num6 => Some(7)
    case Num7 => Some(8)
    case Num8 => Some(9)
    case Num9 => Some(10)
    case Num0 => Some(11)
    case Minus => Some(12)
    case Equal => Some(13)
    case KeyQ => Some(16)
    case KeyW => Some(17)
    case KeyE => Some(18)
    case KeyR => Some(19)
    case KeyT => Some(20)
    case KeyY => Some(21)
    case KeyU => Some(22)
    case KeyI => Some(23)
    case KeyO => Some(24)
    case KeyP => Some(25)
    case LeftBracket => Some(26)
    case RightBracket => Some(27)
    case KeyA => Some(30)
    case KeyS => Some(31)
    case KeyD => Some(32)
    case KeyF => Some(33)
    case KeyG => Some(34)
    case KeyH => Some(35)
    case KeyJ => Some(36)
    case KeyK => Some(37)
    case KeyL => Some(38)
    case SemiColon => Some(39)
    case Quote => Some(40)
    case BackSlash => Some(43)
    case IntlBackslash => Some(86)
    case KeyZ => Some(44)
    case KeyX => Some(45)
    case KeyC => Some(46)
    case KeyV => Some(47)
    case KeyB => Some(48)
    case KeyN => Some(49)
    case KeyM => Some(50)
    case Comma => Some(51)
    case Dot => Some(52)
    case Slash => Some(53)
    case Insert => Some(111)
    case KpReturn => Some(96)
    case KpMinus => Some(74)
    case KpPlus => Some(78)
    case KpMultiply => Some(55)
    case KpDivide => Some(98)
    case Kp0 => Some(82)
    case Kp1 => Some(79)
    case Kp2 => Some(80)
    case Kp3 => Some(81)
    case Kp4 => Some(75)
    case Kp5 => Some(76)
    case Kp6 => Some(77)
    case Kp7 => Some(71)
    case Kp8 => Some(72)
    case Kp9 => Some(73)
    case KpDelete => Some(83)
    case VolumeMute => Some(113)
    case VolumeDown => Some(114)
    case VolumeUp => Some(115)
    case NextTrack => Some(163)
    case PlayPause => Some(164)
    case PreviousTrack => Some(165)
    case PlayCd => Some(200)
    case Function => Some(464)
    case Unknown(code) => Some(code)
    case MetaRight => None
  }

  /** A raw `Unknown` code is passed through as the keycode. */
  lemma UnknownCode(c: u32)
    ensures CodeFromKey(Key.Unknown(c)) == Some(c)
  {
  }

  /** The key of an evdev keycode; a code outside the table is `Unknown`. */
  function KeyFromCode(code: u32): (key: Key)
    ensures key.Unknown? ==> key.code == code
  {
    match code
    case 56 => Key.Alt
    case 126 => Key.AltGr
    case 14 => Key.Backspace
    case 58 => Key.CapsLock
    case 29 => Key.ControlLeft
    case 97 => Key.ControlRight
    case 110 => Key.Delete
    case 108 => Key.DownArrow
    case 107 => Key.End
    case 1 => Key.Escape
    case 59 => Key.F1
    case 68 => Key.F10
    case 87 => Key.F11
    case 88 => Key.F12
    case 60 => Key.F2
    case 61 => Key.F3
    case 62 => Key.F4
    case 63 => Key.F5
    case 64 => Key.F6
    case 65 => Key.F7
    case 66 => Key.F8
    case 67 => Key.F9
    case 102 => Key.Home
    case 105 => Key.LeftArrow
    case 125 => Key.MetaLeft
    case 109 => Key.PageDown
    case 104 => Key.PageUp
    case 28 => Key.Return
    case 106 => Key.RightArrow
    case 42 => Key.ShiftLeft
    case 54 => Key.ShiftRight
    case 57 => Key.Space
    case 15 => Key.Tab
    case 103 => Key.UpArrow
    case 99 => Key.PrintScreen
    case 70 => Key.ScrollLock
    case 119 => Key.Pause
    case 69 => Key.NumLock
    case 41 => Key.BackQuote
    case 2 => Key.Num1
    case 3 => Key.Num2
    case 4 => Key.Num3
    case 5 => Key.Num4
    case 6 => Key.Num5
    case 7 => Key.Num6
    case 8 => Key.Num7
    case 9 => Key.Num8
    case 10 => Key.Num9
    case 11 => Key.Num0
    case 12 => Key.Minus
    case 13 => Key.Equal
    case 16 => Key.KeyQ
    case 17 => Key.KeyW
    case 18 => Key.KeyE
    case 19 => Key.KeyR
    case 20 => Key.KeyT
    case 21 => Key.KeyY
    case 22 => Key.KeyU
    case 23 => Key.KeyI
    case 24 => Key.KeyO
    case 25 => Key.KeyP
    case 26 => Key.LeftBracket
    case 27 => Key.RightBracket
    case 30 => Key.KeyA
    case 31 => Key.KeyS
    case 32 => Key.KeyD
    case 33 => Key.KeyF
    case 34 => Key.KeyG
    case 35 => Key.KeyH
    case 36 => Key.KeyJ
    case 37 => Key.KeyK
    case 38 => Key.KeyL
    case 39 => Key.SemiColon
    case 40 => Key.Quote
    case 43 => Key.BackSlash
    case 86 => Key.IntlBackslash
    case 44 => Key.KeyZ
    case 45 => Key.KeyX
    case 46 => Key.KeyC
    case 47 => Key.KeyV
    case 48 => Key.KeyB
    case 49 => Key.KeyN
    case 50 => Key.KeyM
    case 51 => Key.Comma
    case 52 => Key.Dot
    case 53 => Key.Slash
    case 111 => Key.Insert
    case 96 => Key.KpReturn
    case 74 => Key.KpMinus
    case 78 => Key.KpPlus
    case 55 => Key.KpMultiply
    case 98 => Key.KpDivide
    case 82 => Key.Kp0
    case 79 => Key.Kp1
    case 80 => Key.Kp2
    case 81 => Key.Kp3
    case 75 => Key.Kp4
    case 76 => Key.Kp5
    case 77 => Key.Kp6
    case 71 => Key.Kp7
    case 72 => Key.Kp8
    case 73 => Key.Kp9
    case 83 => Key.KpDelete
    case 464 => Key.Function
    case 113 => Key.VolumeMute
    case 114 => Key.VolumeDown
    case 115 => Key.VolumeUp
    case 163 => Key.NextTrack
    case 164 => Key.PlayPause
    case 165 => Key.PreviousTrack
    case 200 => Key.PlayCd
    case _ => Key.Unknown(code)
  }

  /** The keys of Unmapped have no code; with the `ensures` of CodeFromKey, a named key encodes exactly when it is not one of them. */
  lemma UnmappedHasNoCode(key: Key)
    requires Unmapped(key)
    ensures CodeFromKey(key).None?
  {
    {
      HasNoCodeMetaRight();
    }
  }

  /** Every evdev keycode survives decoding and re-encoding, the codes outside the table included. */
  lemma CodeRoundTrip(code: u32)
    ensures CodeFromKey(KeyFromCode(code)) == Some(code)
  {
    if code == 56 {
      CodeRoundTripAlt();
    } else if code == 126 {
      CodeRoundTripAltGr();
    } else if code == 14 {
      CodeRoundTripBackspace();
    } else if code == 58 {
      CodeRoundTripCapsLock();
    } else if code == 29 {
      CodeRoundTripControlLeft();
    } else if code == 97 {
      CodeRoundTripControlRight();
    } else if code == 110 {
      CodeRoundTripDelete();
    } else if code == 108 {
      CodeRoundTripDownArrow();
    } else if code == 107 {
      CodeRoundTripEnd();
    } else if code == 1 {
      CodeRoundTripEscape();
    } else if code == 59 {
      CodeRoundTripF1();
    } else if code == 60 {
      CodeRoundTripF2();
    } else if code == 61 {
      CodeRoundTripF3();
    } else if code == 62 {
      CodeRoundTripF4();
    } else if code == 63 {
      CodeRoundTripF5();
    } else if code == 64 {
      CodeRoundTripF6();
    } else if code == 65 {
      CodeRoundTripF7();
    } else if code == 66 {
      CodeRoundTripF8();
    } else if code == 67 {
      CodeRoundTripF9();
    } else if code == 68 {
      CodeRoundTripF10();
    } else if code == 87 {
      CodeRoundTripF11();
    } else if code == 88 {
      CodeRoundTripF12();
    } else if code == 102 {
      CodeRoundTripHome();
    } else if code == 105 {
      CodeRoundTripLeftArrow();
    } else if code == 125 {
      CodeRoundTripMetaLeft();
    } else if code == 109 {
      CodeRoundTripPageDown();
    } else if code == 104 {
      CodeRoundTripPageUp();
    } else if code == 28 {
      CodeRoundTripReturn();
    } else if code == 106 {
      CodeRoundTripRightArrow();
    } else if code == 42 {
      CodeRoundTripShiftLeft();
    } else if code == 54 {
      CodeRoundTripShiftRight();
    } else if code == 57 {
      CodeRoundTripSpace();
    } else if code == 15 {
      CodeRoundTripTab();
    } else if code == 103 {
      CodeRoundTripUpArrow();
    } else if code == 99 {
      CodeRoundTripPrintScreen();
    } else if code == 70 {
      CodeRoundTripScrollLock();
    } else if code == 119 {
      CodeRoundTripPause();
    } else if code == 69 {
      CodeRoundTripNumLock();
    } else if code == 41 {
      CodeRoundTripBackQuote();
    } else if code == 2 {
      CodeRoundTripNum1();
    } else if code == 3 {
      CodeRoundTripNum2();
    } else if code == 4 {
      CodeRoundTripNum3();
    } else if code == 5 {
      CodeRoundTripNum4();
    } else if code == 6 {
      CodeRoundTripNum5();
    } else if code == 7 {
      CodeRoundTripNum6();
    } else if code == 8 {
      CodeRoundTripNum7();
    } else if code == 9 {
      CodeRoundTripNum8();
    } else if code == 10 {
      CodeRoundTripNum9();
    } else if code == 11 {
      CodeRoundTripNum0();
    } else if code == 12 {
      CodeRoundTripMinus();
    } else if code == 13 {
      CodeRoundTripEqual();
    } else if code == 16 {
      CodeRoundTripKeyQ();
    } else if code == 17 {
      CodeRoundTripKeyW();
    } else if code == 18 {
      CodeRoundTripKeyE();
    } else if code == 19 {
      CodeRoundTripKeyR();
    } else if code == 20 {
      CodeRoundTripKeyT();
    } else if code == 21 {
      CodeRoundTripKeyY();
    } else if code == 22 {
      CodeRoundTripKeyU();
    } else if code == 23 {
      CodeRoundTripKeyI();
    } else if code == 24 {
      CodeRoundTripKeyO();
    } else if code == 25 {
      CodeRoundTripKeyP();
    } else if code == 26 {
      CodeRoundTripLeftBracket();
    } else if code == 27 {
      CodeRoundTripRightBracket();
    } else if code == 30 {
      CodeRoundTripKeyA();
    } else if code == 31 {
      CodeRoundTripKeyS();
    } else if code == 32 {
      CodeRoundTripKeyD();
    } else if code == 33 {
      CodeRoundTripKeyF();
    } else if code == 34 {
      CodeRoundTripKeyG();
    } else if code == 35 {
      CodeRoundTripKeyH();
    } else if code == 36 {
      CodeRoundTripKeyJ();
    } else if code == 37 {
      CodeRoundTripKeyK();
    } else if code == 38 {
      CodeRoundTripKeyL();
    } else if code == 39 {
      CodeRoundTripSemiColon();
    } else if code == 40 {
      CodeRoundTripQuote();
    } else if code == 43 {
      CodeRoundTripBackSlash();
    } else if code == 86 {
      CodeRoundTripIntlBackslash();
    } else if code == 44 {
      CodeRoundTripKeyZ();
    } else if code == 45 {
      CodeRoundTripKeyX();
    } else if code == 46 {
      CodeRoundTripKeyC();
    } else if code == 47 {
      CodeRoundTripKeyV();
    } else if code == 48 {
      CodeRoundTripKeyB();
    } else if code == 49 {
      CodeRoundTripKeyN();
    } else if code == 50 {
      CodeRoundTripKeyM();
    } else if code == 51 {
      CodeRoundTripComma();
    } else if code == 52 {
      CodeRoundTripDot();
    } else if code == 53 {
      CodeRoundTripSlash();
    } else if code == 111 {
      CodeRoundTripInsert();
    } else if code == 96 {
      CodeRoundTripKpReturn();
    } else if code == 74 {
      CodeRoundTripKpMinus();
    } else if code == 78 {
      CodeRoundTripKpPlus();
    } else if code == 55 {
      CodeRoundTripKpMultiply();
    } else if code == 98 {
      CodeRoundTripKpDivide();
    } else if code == 82 {
      CodeRoundTripKp0();
    } else if code == 79 {
      CodeRoundTripKp1();
    } else if code == 80 {
      CodeRoundTripKp2();
    } else if code == 81 {
      CodeRoundTripKp3();
    } else if code == 75 {
      CodeRoundTripKp4();
    } else if code == 76 {
      CodeRoundTripKp5();
    } else if code == 77 {
      CodeRoundTripKp6();
    } else if code == 71 {
      CodeRoundTripKp7();
    } else if code == 72 {
      CodeRoundTripKp8();
    } else if code == 73 {
      CodeRoundTripKp9();
    } else if code == 83 {
      CodeRoundTripKpDelete();
    } else if code == 113 {
      CodeRoundTripVolumeMute();
    } else if code == 114 {
      CodeRoundTripVolumeDown();
    } else if code == 115 {
      CodeRoundTripVolumeUp();
    } else if code == 163 {
      CodeRoundTripNextTrack();
    } else if code == 164 {
      CodeRoundTripPlayPause();
    } else if code == 165 {
      CodeRoundTripPreviousTrack();
    } else if code == 200 {
      CodeRoundTripPlayCd();
    } else if code == 464 {
      CodeRoundTripFunction();
    } else {
      assert KeyFromCode(code) == Key.Unknown(code);
    }
  }

  /** Encoding is injective on the named keys: two different named keys never share a code. */
  lemma CodeFromKeyDistinct(k1: Key, k2: Key)
    requires !k1.Unknown? && !k2.Unknown? && k1 != k2
    requires CodeFromKey(k1).Some?
    ensures CodeFromKey(k1) != CodeFromKey(k2)
  {
  }

  /** Decoding is injective: two codes that name the same key are the same code. */
  lemma KeyFromCodeInjective(c1: u32, c2: u32)
    requires KeyFromCode(c1) == KeyFromCode(c2)
    ensures c1 == c2
  {
    CodeRoundTrip(c1);
    CodeRoundTrip(c2);
  }

  /** The media keys have evdev codes, and so does `Function`: their codes decode to them, and by CodeRoundTrip encode back. */
  lemma MediaKeyCodes()
    ensures KeyFromCode(113) == VolumeMute
    ensures KeyFromCode(200) == PlayCd
    ensures KeyFromCode(464) == Function
  {
  }

  /** The named keys that have no uinput key. */
  predicate UinputUnmapped(key: Key)
  {
    key.MetaRight? || key.IntlBackslash? || key.KpDelete? || key.Function?
  }

  /** The uinput key (a 16-bit kernel key code) of a key. A raw `Unknown` code is truncated to 16 bits, and the named keys without a uinput key have none. Each code is written out with the name of its kernel constant. */
  function UkeyFromKey(key: Key): (r: Option<u16>)
    ensures !key.Unknown? && r.Some? ==> KeyFromUkey(r.value) == key
    ensures !key.Unknown? && r.None? ==> UinputUnmapped(key)
  {
    match key
    case Escape => Some(1)  // KEY_ESC
    case Num1 => Some(2)  // KEY_1
    case Num2 => Some(3)  // KEY_2
    case Num3 => Some(4)  // KEY_3
    case Num4 => Some(5)  // KEY_4
    case Num5 => Some(6)  // KEY_5
    case Num6 => Some(7)  // KEY_6
    case Num7 => Some(8)  // KEY_7
    case Num8 => Some(9)  // KEY_8
    case Num9 => Some(10)  // KEY_9
    case Num0 => Some(11)  // KEY_0
    case Minus => Some(12)  // KEY_MINUS
    case Equal => Some(13)  // KEY_EQUAL
    case Backspace => Some(14)  // KEY_BACKSPACE
    case Tab => Some(15)  // KEY_TAB
    case KeyQ => Some(16)  // KEY_Q
    case KeyW => Some(17)  // KEY_W
    case KeyE => Some(18)  // KEY_E
    case KeyR => Some(19)  // KEY_R
    case KeyT => Some(20)  // KEY_T
    case KeyY => Some(21)  // KEY_Y
    case KeyU => Some(22)  // KEY_U
    case KeyI => Some(23)  // KEY_I
    case KeyO => Some(24)  // KEY_O
    case KeyP => Some(25)  // KEY_P
    case LeftBracket => Some(26)  // KEY_LEFTBRACE
    case RightBracket => Some(27)  // KEY_RIGHTBRACE
    case Return => Some(28)  // KEY_ENTER
    case ControlLeft => Some(29)  // KEY_LEFTCTRL
    case KeyA => Some(30)  // KEY_A
    case KeyS => Some(31)  // KEY_S
    case KeyD => Some(32)  // KEY_D
    case KeyF => Some(33)  // KEY_F
    case KeyG => Some(34)  // KEY_G
    case KeyH => Some(35)  // KEY_H
    case KeyJ => Some(36)  // KEY_J
    case KeyK => Some(37)  // KEY_K
    case KeyL => Some(38)  // KEY_L
    case SemiColon => Some(39)  // KEY_SEMICOLON
    case Quote => Some(40)  // KEY_APOSTROPHE
    case BackQuote => Some(41)  // KEY_GRAVE
    case ShiftLeft => Some(42)  // KEY_LEFTSHIFT
    case BackSlash => Some(43)  // KEY_BACKSLASH
    case KeyZ => Some(44)  // KEY_Z
    case KeyX => Some(45)  // KEY_X
    case KeyC => Some(46)  // KEY_C
    case KeyV => Some(47)  // KEY_V
    case KeyB => Some(48)  // KEY_B
    case KeyN => Some(49)  // KEY_N
    case KeyM => Some(50)  // KEY_M
    case Comma => Some(51)  // KEY_COMMA
    case Dot => Some(52)  // KEY_DOT
    case Slash => Some(53)  // KEY_SLASH
    case ShiftRight => Some(54)  // KEY_RIGHTSHIFT
    case KpMultiply => Some(55)  // KEY_KPASTERISK
    case Alt => Some(56)  // KEY_LEFTALT
    case Space => Some(57)  // KEY_SPACE
    case CapsLock => Some(58)  // KEY_CAPSLOCK
    case F1 => Some(59)  // KEY_F1
    case F2 => Some(60)  // KEY_F2
    case F3 => Some(61)  // KEY_F3
    case F4 => Some(62)  // KEY_F4
    case F5 => Some(63)  // KEY_F5
    case F6 => Some(64)  // KEY_F6
    case F7 => Some(65)  // KEY_F7
    case F8 => Some(66)  // KEY_F8
    case F9 => Some(67)  // KEY_F9
    case F10 => Some(68)  // KEY_F10
    case NumLock => Some(69)  // KEY_NUMLOCK
    case ScrollLock => Some(70)  // KEY_SCROLLLOCK
    case Kp7 => Some(71)  // KEY_KP7
    case Kp8 => Some(72)  // KEY_KP8
    case Kp9 => Some(73)  // KEY_KP9
    case KpMinus => Some(74)  // KEY_KPMINUS
    case Kp4 => Some(75)  // KEY_KP4
    case Kp5 => Some(76)  // KEY_KP5
    case Kp6 => Some(77)  // KEY_KP6
    case KpPlus => Some(78)  // KEY_KPPLUS
    case Kp1 => Some(79)  // KEY_KP1
    case Kp2 => Some(80)  // KEY_KP2
    case Kp3 => Some(81)  // KEY_KP3
    case Kp0 => Some(82)  // KEY_KP0
    case F11 => Some(87)  // KEY_F11
    case F12 => Some(88)  // KEY_F12
    case KpReturn => Some(96)  // KEY_KPENTER
    case ControlRight => Some(97)  // KEY_RIGHTCTRL
    case KpDivide => Some(98)  // KEY_KPSLASH
    case AltGr => Some(100)  // KEY_RIGHTALT
    case Home => Some(102)  // KEY_HOME
    case UpArrow => Some(103)  // KEY_UP
    case PageUp => Some(104)  // KEY_PAGEUP
    case LeftArrow => Some(105)  // KEY_LEFT
    case RightArrow => Some(106)  // KEY_RIGHT
    case End => Some(107)  // KEY_END
    case DownArrow => Some(108)  // KEY_DOWN
    case PageDown => Some(109)  // KEY_PAGEDOWN
    case Insert => Some(110)  // KEY_INSERT
    case Delete => Some(111)  // KEY_DELETE
    case Pause => Some(119)  // KEY_PAUSE
    case MetaLeft => Some(125)  // KEY_LEFTMETA
    case PrintScreen => Some(210)  // KEY_PRINT
    case PlayPause => Some(164)  // KEY_PLAYPAUSE
    case PlayCd => Some(200)  // KEY_PLAYCD
    case VolumeMute => Some(113)  // KEY_MUTE
    case VolumeDown => Some(114)  // KEY_VOLUMEDOWN
    case VolumeUp => Some(115)  // KEY_VOLUMEUP
    case NextTrack => Some(163)  // KEY_NEXTSONG
    case PreviousTrack => Some(165)  // KEY_PREVIOUSSONG
    case Unknown(code) => Some(AsU16(code))
    case MetaRight | IntlBackslash | KpDelete | Function => None
  }

  /** A raw `Unknown` code is reinterpreted as a uinput key by keeping its low 16 bits. */
  lemma UnknownUkey(c: u32)
    ensures UkeyFromKey(Key.Unknown(c)).Some?
    ensures UkeyFromKey(Key.Unknown(c)).value as int == c % TWO_16
  {
  }

  /** The key of a uinput key; a key outside the table is `Unknown`. */
  function KeyFromUkey(code: u16): (key: Key)
    ensures key.Unknown? ==> key.code == code as u32
  {
    match code
    case 56 => Key.Alt  // KEY_LEFTALT
    case 100 => Key.AltGr  // KEY_RIGHTALT
    case 14 => Key.Backspace  // KEY_BACKSPACE
    case 58 => Key.CapsLock  // KEY_CAPSLOCK
    case 29 => Key.ControlLeft  // KEY_LEFTCTRL
    case 97 => Key.ControlRight  // KEY_RIGHTCTRL
    case 111 => Key.Delete  // KEY_DELETE
    case 108 => Key.DownArrow  // KEY_DOWN
    case 107 => Key.End  // KEY_END
    case 1 => Key.Escape  // KEY_ESC
    case 59 => Key.F1  // KEY_F1
    case 68 => Key.F10  // KEY_F10
    case 87 => Key.F11  // KEY_F11
    case 88 => Key.F12  // KEY_F12
    case 60 => Key.F2  // KEY_F2
    case 61 => Key.F3  // KEY_F3
    case 62 => Key.F4  // KEY_F4
    case 63 => Key.F5  // KEY_F5
    case 64 => Key.F6  // KEY_F6
    case 65 => Key.F7  // KEY_F7
    case 66 => Key.F8  // KEY_F8
    case 67 => Key.F9  // KEY_F9
    case 102 => Key.Home  // KEY_HOME
    case 105 => Key.LeftArrow  // KEY_LEFT
    case 125 => Key.MetaLeft  // KEY_LEFTMETA
    case 109 => Key.PageDown  // KEY_PAGEDOWN
    case 104 => Key.PageUp  // KEY_PAGEUP
    case 28 => Key.Return  // KEY_ENTER
    case 106 => Key.RightArrow  // KEY_RIGHT
    case 42 => Key.ShiftLeft  // KEY_LEFTSHIFT
    case 54 => Key.ShiftRight  // KEY_RIGHTSHIFT
    case 57 => Key.Space  // KEY_SPACE
    case 15 => Key.Tab  // KEY_TAB
    case 103 => Key.UpArrow  // KEY_UP
    case 210 => Key.PrintScreen  // KEY_PRINT
    case 70 => Key.ScrollLock  // KEY_SCROLLLOCK
    case 119 => Key.Pause  // KEY_PAUSE
    case 69 => Key.NumLock  // KEY_NUMLOCK
    case 41 => Key.BackQuote  // KEY_GRAVE
    case 2 => Key.Num1  // KEY_1
    case 3 => Key.Num2  // KEY_2
    case 4 => Key.Num3  // KEY_3
    case 5 => Key.Num4  // KEY_4
    case 6 => Key.Num5  // KEY_5
    case 7 => Key.Num6  // KEY_6
    case 8 => Key.Num7  // KEY_7
    case 9 => Key.Num8  // KEY_8
    case 10 => Key.Num9  // KEY_9
    case 11 => Key.Num0  // KEY_0
    case 12 => Key.Minus  // KEY_MINUS
    case 13 => Key.Equal  // KEY_EQUAL
    case 16 => Key.KeyQ  // KEY_Q
    case 17 => Key.KeyW  // KEY_W
    case 18 => Key.KeyE  // KEY_E
    case 19 => Key.KeyR  // KEY_R
    case 20 => Key.KeyT  // KEY_T
    case 21 => Key.KeyY  // KEY_Y
    case 22 => Key.KeyU  // KEY_U
    case 23 => Key.KeyI  // KEY_I
    case 24 => Key.KeyO  // KEY_O
    case 25 => Key.KeyP  // KEY_P
    case 26 => Key.LeftBracket  // KEY_LEFTBRACE
    case 27 => Key.RightBracket  // KEY_RIGHTBRACE
    case 30 => Key.KeyA  // KEY_A
    case 31 => Key.KeyS  // KEY_S
    case 32 => Key.KeyD  // KEY_D
    case 33 => Key.KeyF  // KEY_F
    case 34 => Key.KeyG  // KEY_G
    case 35 => Key.KeyH  // KEY_H
    case 36 => Key.KeyJ  // KEY_J
    case 37 => Key.KeyK  // KEY_K
    case 38 => Key.KeyL  // KEY_L
    case 39 => Key.SemiColon  // KEY_SEMICOLON
    case 40 => Key.Quote  // KEY_APOSTROPHE
    case 43 => Key.BackSlash  // KEY_BACKSLASH
    case 44 => Key.KeyZ  // KEY_Z
    case 45 => Key.KeyX  // KEY_X
    case 46 => Key.KeyC  // KEY_C
    case 47 => Key.KeyV  // KEY_V
    case 48 => Key.KeyB  // KEY_B
    case 49 => Key.KeyN  // KEY_N
    case 50 => Key.KeyM  // KEY_M
    case 51 => Key.Comma  // KEY_COMMA
    case 52 => Key.Dot  // KEY_DOT
    case 53 => Key.Slash  // KEY_SLASH
    case 110 => Key.Insert  // KEY_INSERT
    case 96 => Key.KpReturn  // KEY_KPENTER
    case 74 => Key.KpMinus  // KEY_KPMINUS
    case 78 => Key.KpPlus  // KEY_KPPLUS
    case 55 => Key.KpMultiply  // KEY_KPASTERISK
    case 98 => Key.KpDivide  // KEY_KPSLASH
    case 82 => Key.Kp0  // KEY_KP0
    case 79 => Key.Kp1  // KEY_KP1
    case 80 => Key.Kp2  // KEY_KP2
    case 81 => Key.Kp3  // KEY_KP3
    case 75 => Key.Kp4  // KEY_KP4
    case 76 => Key.Kp5  // KEY_KP5
    case 77 => Key.Kp6  // KEY_KP6
    case 71 => Key.Kp7  // KEY_KP7
    case 72 => Key.Kp8  // KEY_KP8
    case 73 => Key.Kp9  // KEY_KP9
    case 113 => Key.VolumeMute  // KEY_MUTE
    case 114 => Key.VolumeDown  // KEY_VOLUMEDOWN
    case 115 => Key.VolumeUp  // KEY_VOLUMEUP
    case 163 => Key.NextTrack  // KEY_NEXTSONG
    case 164 => Key.PlayPause  // KEY_PLAYPAUSE
    case 165 => Key.PreviousTrack  // KEY_PREVIOUSSONG
    case 200 => Key.PlayCd  // KEY_PLAYCD
    case _ => Key.Unknown(code as u32)
  }

  /** The keys of UinputUnmapped have no code; with the `ensures` of UkeyFromKey, a named key encodes exactly when it is not one of them. */
  lemma UinputUnmappedHasNoCode(key: Key)
    requires UinputUnmapped(key)
    ensures UkeyFromKey(key).None?
  {
    if key.MetaRight? || key.IntlBackslash? || key.KpDelete? || key.Function? {
      UinputUnmappedHasNoCode0(key);
    }
  }

  /** Every uinput key survives decoding and re-encoding, the keys outside the table included. */
  lemma UkeyRoundTrip(code: u16)
    ensures UkeyFromKey(KeyFromUkey(code)) == Some(code)
  {
    if code == 1 {
      UkeyRoundTripEscape();
    } else if code == 2 {
      UkeyRoundTripNum1();
    } else if code == 3 {
      UkeyRoundTripNum2();
    } else if code == 4 {
      UkeyRoundTripNum3();
    } else if code == 5 {
      UkeyRoundTripNum4();
    } else if code == 6 {
      UkeyRoundTripNum5();
    } else if code == 7 {
      UkeyRoundTripNum6();
    } else if code == 8 {
      UkeyRoundTripNum7();
    } else if code == 9 {
      UkeyRoundTripNum8();
    } else if code == 10 {
      UkeyRoundTripNum9();
    } else if code == 11 {
      UkeyRoundTripNum0();
    } else if code == 12 {
      UkeyRoundTripMinus();
    } else if code == 13 {
      UkeyRoundTripEqual();
    } else if code == 14 {
      UkeyRoundTripBackspace();
    } else if code == 15 {
      UkeyRoundTripTab();
    } else if code == 16 {
      UkeyRoundTripKeyQ();
    } else if code == 17 {
      UkeyRoundTripKeyW();
    } else if code == 18 {
      UkeyRoundTripKeyE();
    } else if code == 19 {
      UkeyRoundTripKeyR();
    } else if code == 20 {
      UkeyRoundTripKeyT();
    } else if code == 21 {
      UkeyRoundTripKeyY();
    } else if code == 22 {
      UkeyRoundTripKeyU();
    } else if code == 23 {
      UkeyRoundTripKeyI();
    } else if code == 24 {
      UkeyRoundTripKeyO();
    } else if code == 25 {
      UkeyRoundTripKeyP();
    } else if code == 26 {
      UkeyRoundTripLeftBracket();
    } else if code == 27 {
      UkeyRoundTripRightBracket();
    } else if code == 28 {
      UkeyRoundTripReturn();
    } else if code == 29 {
      UkeyRoundTripControlLeft();
    } else if code == 30 {
      UkeyRoundTripKeyA();
    } else if code == 31 {
      UkeyRoundTripKeyS();
    } else if code == 32 {
      UkeyRoundTripKeyD();
    } else if code == 33 {
      UkeyRoundTripKeyF();
    } else if code == 34 {
      UkeyRoundTripKeyG();
    } else if code == 35 {
      UkeyRoundTripKeyH();
    } else if code == 36 {
      UkeyRoundTripKeyJ();
    } else if code == 37 {
      UkeyRoundTripKeyK();
    } else if code == 38 {
      UkeyRoundTripKeyL();
    } else if code == 39 {
      UkeyRoundTripSemiColon();
    } else if code == 40 {
      UkeyRoundTripQuote();
    } else if code == 41 {
      UkeyRoundTripBackQuote();
    } else if code == 42 {
      UkeyRoundTripShiftLeft();
    } else if code == 43 {
      UkeyRoundTripBackSlash();
    } else if code == 44 {
      UkeyRoundTripKeyZ();
    } else if code == 45 {
      UkeyRoundTripKeyX();
    } else if code == 46 {
      UkeyRoundTripKeyC();
    } else if code == 47 {
      UkeyRoundTripKeyV();
    } else if code == 48 {
      UkeyRoundTripKeyB();
    } else if code == 49 {
      UkeyRoundTripKeyN();
    } else if code == 50 {
      UkeyRoundTripKeyM();
    } else if code == 51 {
      UkeyRoundTripComma();
    } else if code == 52 {
      UkeyRoundTripDot();
    } else if code == 53 {
      UkeyRoundTripSlash();
    } else if code == 54 {
      UkeyRoundTripShiftRight();
    } else if code == 55 {
      UkeyRoundTripKpMultiply();
    } else if code == 56 {
      UkeyRoundTripAlt();
    } else if code == 57 {
      UkeyRoundTripSpace();
    } else if code == 58 {
      UkeyRoundTripCapsLock();
    } else if code == 59 {
      UkeyRoundTripF1();
    } else if code == 60 {
      UkeyRoundTripF2();
    } else if code == 61 {
      UkeyRoundTripF3();
    } else if code == 62 {
      UkeyRoundTripF4();
    } else if code == 63 {
      UkeyRoundTripF5();
    } else if code == 64 {
      UkeyRoundTripF6();
    } else if code == 65 {
      UkeyRoundTripF7();
    } else if code == 66 {
      UkeyRoundTripF8();
    } else if code == 67 {
      UkeyRoundTripF9();
    } else if code == 68 {
      UkeyRoundTripF10();
    } else if code == 69 {
      UkeyRoundTripNumLock();
    } else if code == 70 {
      UkeyRoundTripScrollLock();
    } else if code == 71 {
      UkeyRoundTripKp7();
    } else if code == 72 {
      UkeyRoundTripKp8();
    } else if code == 73 {
      UkeyRoundTripKp9();
    } else if code == 74 {
      UkeyRoundTripKpMinus();
    } else if code == 75 {
      UkeyRoundTripKp4();
    } else if code == 76 {
      UkeyRoundTripKp5();
    } else if code == 77 {
      UkeyRoundTripKp6();
    } else if code == 78 {
      UkeyRoundTripKpPlus();
    } else if code == 79 {
      UkeyRoundTripKp1();
    } else if code == 80 {
      UkeyRoundTripKp2();
    } else if code == 81 {
      UkeyRoundTripKp3();
    } else if code == 82 {
      UkeyRoundTripKp0();
    } else if code == 87 {
      UkeyRoundTripF11();
    } else if code == 88 {
      UkeyRoundTripF12();
    } else if code == 96 {
      UkeyRoundTripKpReturn();
    } else if code == 97 {
      UkeyRoundTripControlRight();
    } else if code == 98 {
      UkeyRoundTripKpDivide();
    } else if code == 100 {
      UkeyRoundTripAltGr();
    } else if code == 102 {
      UkeyRoundTripHome();
    } else if code == 103 {
      UkeyRoundTripUpArrow();
    } else if code == 104 {
      UkeyRoundTripPageUp();
    } else if code == 105 {
      UkeyRoundTripLeftArrow();
    } else if code == 106 {
      UkeyRoundTripRightArrow();
    } else if code == 107 {
      UkeyRoundTripEnd();
    } else if code == 108 {
      UkeyRoundTripDownArrow();
    } else if code == 109 {
      UkeyRoundTripPageDown();
    } else if code == 110 {
      UkeyRoundTripInsert();
    } else if code == 111 {
      UkeyRoundTripDelete();
    } else if code == 119 {
      UkeyRoundTripPause();
    } else if code == 125 {
      UkeyRoundTripMetaLeft();
    } else if code == 210 {
      UkeyRoundTripPrintScreen();
    } else if code == 164 {
      UkeyRoundTripPlayPause();
    } else if code == 200 {
      UkeyRoundTripPlayCd();
    } else if code == 113 {
      UkeyRoundTripVolumeMute();
    } else if code == 114 {
      UkeyRoundTripVolumeDown();
    } else if code == 115 {
      UkeyRoundTripVolumeUp();
    } else if code == 163 {
      UkeyRoundTripNextTrack();
    } else if code == 165 {
      UkeyRoundTripPreviousTrack();
    } else {
      assert KeyFromUkey(code) == Key.Unknown(code as u32);
    }
  }

  /** Encoding is injective on the named keys: two different named keys never share a code. */
  lemma UkeyFromKeyDistinct(k1: Key, k2: Key)
    requires !k1.Unknown? && !k2.Unknown? && k1 != k2
    requires UkeyFromKey(k1).Some?
    ensures UkeyFromKey(k1) != UkeyFromKey(k2)
  {
  }

  /** Decoding is injective: two codes that name the same key are the same code. */
  lemma KeyFromUkeyInjective(c1: u16, c2: u16)
    requires KeyFromUkey(c1) == KeyFromUkey(c2)
    ensures c1 == c2
  {
    UkeyRoundTrip(c1);
    UkeyRoundTrip(c2);
  }

  // Proof scaffolding. The lemmas below only split the case analysis of the lemmas above
  // into pieces the verifier handles quickly: one per table row, per key or per group, and
  // the chunks that gather them. They state nothing beyond those lemmas.

  lemma HasNoCodeMetaRight()
    ensures CodeFromKey(Key.MetaRight).None?
  {
  }

  lemma CodeRoundTripAlt()
    ensures CodeFromKey(KeyFromCode(56)) == Some(56)
  {
    assert KeyFromCode(56) == Key.Alt;
  }

  lemma CodeRoundTripAltGr()
    ensures CodeFromKey(KeyFromCode(126)) == Some(126)
  {
    assert KeyFromCode(126) == Key.AltGr;
  }

  lemma CodeRoundTripBackspace()
    ensures CodeFromKey(KeyFromCode(14)) == Some(14)
  {
    assert KeyFromCode(14) == Key.Backspace;
  }

  lemma CodeRoundTripCapsLock()
    ensures CodeFromKey(KeyFromCode(58)) == Some(58)
  {
    assert KeyFromCode(58) == Key.CapsLock;
  }

  lemma CodeRoundTripControlLeft()
    ensures CodeFromKey(KeyFromCode(29)) == Some(29)
  {
    assert KeyFromCode(29) == Key.ControlLeft;
  }

  lemma CodeRoundTripControlRight()
    ensures CodeFromKey(KeyFromCode(97)) == Some(97)
  {
    assert KeyFromCode(97) == Key.ControlRight;
  }

  lemma CodeRoundTripDelete()
    ensures CodeFromKey(KeyFromCode(110)) == Some(110)
  {
    assert KeyFromCode(110) == Key.Delete;
  }

  lemma CodeRoundTripDownArrow()
    ensures CodeFromKey(KeyFromCode(108)) == Some(108)
  {
    assert KeyFromCode(108) == Key.DownArrow;
  }

  lemma CodeRoundTripEnd()
    ensures CodeFromKey(KeyFromCode(107)) == Some(107)
  {
    assert KeyFromCode(107) == Key.End;
  }

  lemma CodeRoundTripEscape()
    ensures CodeFromKey(KeyFromCode(1)) == Some(1)
  {
    assert KeyFromCode(1) == Key.Escape;
  }

  lemma CodeRoundTripF1()
    ensures CodeFromKey(KeyFromCode(59)) == Some(59)
  {
    assert KeyFromCode(59) == Key.F1;
  }

  lemma CodeRoundTripF2()
    ensures CodeFromKey(KeyFromCode(60)) == Some(60)
  {
    assert KeyFromCode(60) == Key.F2;
  }

  lemma CodeRoundTripF3()
    ensures CodeFromKey(KeyFromCode(61)) == Some(61)
  {
    assert KeyFromCode(61) == Key.F3;
  }

  lemma CodeRoundTripF4()
    ensures CodeFromKey(KeyFromCode(62)) == Some(62)
  {
    assert KeyFromCode(62) == Key.F4;
  }

  lemma CodeRoundTripF5()
    ensures CodeFromKey(KeyFromCode(63)) == Some(63)
  {
    assert KeyFromCode(63) == Key.F5;
  }

  lemma CodeRoundTripF6()
    ensures CodeFromKey(KeyFromCode(64)) == Some(64)
  {
    assert KeyFromCode(64) == Key.F6;
  }

  lemma CodeRoundTripF7()
    ensures CodeFromKey(KeyFromCode(65)) == Some(65)
  {
    assert KeyFromCode(65) == Key.F7;
  }

  lemma CodeRoundTripF8()
    ensures CodeFromKey(KeyFromCode(66)) == Some(66)
  {
    assert KeyFromCode(66) == Key.F8;
  }

  lemma CodeRoundTripF9()
    ensures CodeFromKey(KeyFromCode(67)) == Some(67)
  {
    assert KeyFromCode(67) == Key.F9;
  }

  lemma CodeRoundTripF10()
    ensures CodeFromKey(KeyFromCode(68)) == Some(68)
  {
    assert KeyFromCode(68) == Key.F10;
  }

  lemma CodeRoundTripF11()
    ensures CodeFromKey(KeyFromCode(87)) == Some(87)
  {
    assert KeyFromCode(87) == Key.F11;
  }

  lemma CodeRoundTripF12()
    ensures CodeFromKey(KeyFromCode(88)) == Some(88)
  {
    assert KeyFromCode(88) == Key.F12;
  }

  lemma CodeRoundTripHome()
    ensures CodeFromKey(KeyFromCode(102)) == Some(102)
  {
    assert KeyFromCode(102) == Key.Home;
  }

  lemma CodeRoundTripLeftArrow()
    ensures CodeFromKey(KeyFromCode(105)) == Some(105)
  {
    assert KeyFromCode(105) == Key.LeftArrow;
  }

  lemma CodeRoundTripMetaLeft()
    ensures CodeFromKey(KeyFromCode(125)) == Some(125)
  {
    assert KeyFromCode(125) == Key.MetaLeft;
  }

  lemma CodeRoundTripPageDown()
    ensures CodeFromKey(KeyFromCode(109)) == Some(109)
  {
    assert KeyFromCode(109) == Key.PageDown;
  }

  lemma CodeRoundTripPageUp()
    ensures CodeFromKey(KeyFromCode(104)) == Some(104)
  {
    assert KeyFromCode(104) == Key.PageUp;
  }

  lemma CodeRoundTripReturn()
    ensures CodeFromKey(KeyFromCode(28)) == Some(28)
  {
    assert KeyFromCode(28) == Key.Return;
  }

  lemma CodeRoundTripRightArrow()
    ensures CodeFromKey(KeyFromCode(106)) == Some(106)
  {
    assert KeyFromCode(106) == Key.RightArrow;
  }

  lemma CodeRoundTripShiftLeft()
    ensures CodeFromKey(KeyFromCode(42)) == Some(42)
  {
    assert KeyFromCode(42) == Key.ShiftLeft;
  }

  lemma CodeRoundTripShiftRight()
    ensures CodeFromKey(KeyFromCode(54)) == Some(54)
  {
    assert KeyFromCode(54) == Key.ShiftRight;
  }

  lemma CodeRoundTripSpace()
    ensures CodeFromKey(KeyFromCode(57)) == Some(57)
  {
    assert KeyFromCode(57) == Key.Space;
  }

  lemma CodeRoundTripTab()
    ensures CodeFromKey(KeyFromCode(15)) == Some(15)
  {
    assert KeyFromCode(15) == Key.Tab;
  }

  lemma CodeRoundTripUpArrow()
    ensures CodeFromKey(KeyFromCode(103)) == Some(103)
  {
    assert KeyFromCode(103) == Key.UpArrow;
  }

  lemma CodeRoundTripPrintScreen()
    ensures CodeFromKey(KeyFromCode(99)) == Some(99)
  {
    assert KeyFromCode(99) == Key.PrintScreen;
  }

  lemma CodeRoundTripScrollLock()
    ensures CodeFromKey(KeyFromCode(70)) == Some(70)
  {
    assert KeyFromCode(70) == Key.ScrollLock;
  }

  lemma CodeRoundTripPause()
    ensures CodeFromKey(KeyFromCode(119)) == Some(119)
  {
    assert KeyFromCode(119) == Key.Pause;
  }

  lemma CodeRoundTripNumLock()
    ensures CodeFromKey(KeyFromCode(69)) == Some(69)
  {
    assert KeyFromCode(69) == Key.NumLock;
  }

  lemma CodeRoundTripBackQuote()
    ensures CodeFromKey(KeyFromCode(41)) == Some(41)
  {
    assert KeyFromCode(41) == Key.BackQuote;
  }

  lemma CodeRoundTripNum1()
    ensures CodeFromKey(KeyFromCode(2)) == Some(2)
  {
    assert KeyFromCode(2) == Key.Num1;
  }

  lemma CodeRoundTripNum2()
    ensures CodeFromKey(KeyFromCode(3)) == Some(3)
  {
    assert KeyFromCode(3) == Key.Num2;
  }

  lemma CodeRoundTripNum3()
    ensures CodeFromKey(KeyFromCode(4)) == Some(4)
  {
    assert KeyFromCode(4) == Key.Num3;
  }

  lemma CodeRoundTripNum4()
    ensures CodeFromKey(KeyFromCode(5)) == Some(5)
  {
    assert KeyFromCode(5) == Key.Num4;
  }

  lemma CodeRoundTripNum5()
    ensures CodeFromKey(KeyFromCode(6)) == Some(6)
  {
    assert KeyFromCode(6) == Key.Num5;
  }

  lemma CodeRoundTripNum6()
    ensures CodeFromKey(KeyFromCode(7)) == Some(7)
  {
    assert KeyFromCode(7) == Key.Num6;
  }

  lemma CodeRoundTripNum7()
    ensures CodeFromKey(KeyFromCode(8)) == Some(8)
  {
    assert KeyFromCode(8) == Key.Num7;
  }

  lemma CodeRoundTripNum8()
    ensures CodeFromKey(KeyFromCode(9)) == Some(9)
  {
    assert KeyFromCode(9) == Key.Num8;
  }

  lemma CodeRoundTripNum9()
    ensures CodeFromKey(KeyFromCode(10)) == Some(10)
  {
    assert KeyFromCode(10) == Key.Num9;
  }

  lemma CodeRoundTripNum0()
    ensures CodeFromKey(KeyFromCode(11)) == Some(11)
  {
    assert KeyFromCode(11) == Key.Num0;
  }

  lemma CodeRoundTripMinus()
    ensures CodeFromKey(KeyFromCode(12)) == Some(12)
  {
    assert KeyFromCode(12) == Key.Minus;
  }

  lemma CodeRoundTripEqual()
    ensures CodeFromKey(KeyFromCode(13)) == Some(13)
  {
    assert KeyFromCode(13) == Key.Equal;
  }

  lemma CodeRoundTripKeyQ()
    ensures CodeFromKey(KeyFromCode(16)) == Some(16)
  {
    assert KeyFromCode(16) == Key.KeyQ;
  }

  lemma CodeRoundTripKeyW()
    ensures CodeFromKey(KeyFromCode(17)) == Some(17)
  {
    assert KeyFromCode(17) == Key.KeyW;
  }

  lemma CodeRoundTripKeyE()
    ensures CodeFromKey(KeyFromCode(18)) == Some(18)
  {
    assert KeyFromCode(18) == Key.KeyE;
  }

  lemma CodeRoundTripKeyR()
    ensures CodeFromKey(KeyFromCode(19)) == Some(19)
  {
    assert KeyFromCode(19) == Key.KeyR;
  }

  lemma CodeRoundTripKeyT()
    ensures CodeFromKey(KeyFromCode(20)) == Some(20)
  {
    assert KeyFromCode(20) == Key.KeyT;
  }

  lemma CodeRoundTripKeyY()
    ensures CodeFromKey(KeyFromCode(21)) == Some(21)
  {
    assert KeyFromCode(21) == Key.KeyY;
  }

  lemma CodeRoundTripKeyU()
    ensures CodeFromKey(KeyFromCode(22)) == Some(22)
  {
    assert KeyFromCode(22) == Key.KeyU;
  }

  lemma CodeRoundTripKeyI()
    ensures CodeFromKey(KeyFromCode(23)) == Some(23)
  {
    assert KeyFromCode(23) == Key.KeyI;
  }

  lemma CodeRoundTripKeyO()
    ensures CodeFromKey(KeyFromCode(24)) == Some(24)
  {
    assert KeyFromCode(24) == Key.KeyO;
  }

  lemma CodeRoundTripKeyP()
    ensures CodeFromKey(KeyFromCode(25)) == Some(25)
  {
    assert KeyFromCode(25) == Key.KeyP;
  }

  lemma CodeRoundTripLeftBracket()
    ensures CodeFromKey(KeyFromCode(26)) == Some(26)
  {
    assert KeyFromCode(26) == Key.LeftBracket;
  }

  lemma CodeRoundTripRightBracket()
    ensures CodeFromKey(KeyFromCode(27)) == Some(27)
  {
    assert KeyFromCode(27) == Key.RightBracket;
  }

  lemma CodeRoundTripKeyA()
    ensures CodeFromKey(KeyFromCode(30)) == Some(30)
  {
    assert KeyFromCode(30) == Key.KeyA;
  }

  lemma CodeRoundTripKeyS()
    ensures CodeFromKey(KeyFromCode(31)) == Some(31)
  {
    assert KeyFromCode(31) == Key.KeyS;
  }

  lemma CodeRoundTripKeyD()
    ensures CodeFromKey(KeyFromCode(32)) == Some(32)
  {
    assert KeyFromCode(32) == Key.KeyD;
  }

  lemma CodeRoundTripKeyF()
    ensures CodeFromKey(KeyFromCode(33)) == Some(33)
  {
    assert KeyFromCode(33) == Key.KeyF;
  }

  lemma CodeRoundTripKeyG()
    ensures CodeFromKey(KeyFromCode(34)) == Some(34)
  {
    assert KeyFromCode(34) == Key.KeyG;
  }

  lemma CodeRoundTripKeyH()
    ensures CodeFromKey(KeyFromCode(35)) == Some(35)
  {
    assert KeyFromCode(35) == Key.KeyH;
  }

  lemma CodeRoundTripKeyJ()
    ensures CodeFromKey(KeyFromCode(36)) == Some(36)
  {
    assert KeyFromCode(36) == Key.KeyJ;
  }

  lemma CodeRoundTripKeyK()
    ensures CodeFromKey(KeyFromCode(37)) == Some(37)
  {
    assert KeyFromCode(37) == Key.KeyK;
  }

  lemma CodeRoundTripKeyL()
    ensures CodeFromKey(KeyFromCode(38)) == Some(38)
  {
    assert KeyFromCode(38) == Key.KeyL;
  }

  lemma CodeRoundTripSemiColon()
    ensures CodeFromKey(KeyFromCode(39)) == Some(39)
  {
    assert KeyFromCode(39) == Key.SemiColon;
  }

  lemma CodeRoundTripQuote()
    ensures CodeFromKey(KeyFromCode(40)) == Some(40)
  {
    assert KeyFromCode(40) == Key.Quote;
  }

  lemma CodeRoundTripBackSlash()
    ensures CodeFromKey(KeyFromCode(43)) == Some(43)
  {
    assert KeyFromCode(43) == Key.BackSlash;
  }

  lemma CodeRoundTripIntlBackslash()
    ensures CodeFromKey(KeyFromCode(86)) == Some(86)
  {
    assert KeyFromCode(86) == Key.IntlBackslash;
  }

  lemma CodeRoundTripKeyZ()
    ensures CodeFromKey(KeyFromCode(44)) == Some(44)
  {
    assert KeyFromCode(44) == Key.KeyZ;
  }

  lemma CodeRoundTripKeyX()
    ensures CodeFromKey(KeyFromCode(45)) == Some(45)
  {
    assert KeyFromCode(45) == Key.KeyX;
  }

  lemma CodeRoundTripKeyC()
    ensures CodeFromKey(KeyFromCode(46)) == Some(46)
  {
    assert KeyFromCode(46) == Key.KeyC;
  }

  lemma CodeRoundTripKeyV()
    ensures CodeFromKey(KeyFromCode(47)) == Some(47)
  {
    assert KeyFromCode(47) == Key.KeyV;
  }

  lemma CodeRoundTripKeyB()
    ensures CodeFromKey(KeyFromCode(48)) == Some(48)
  {
    assert KeyFromCode(48) == Key.KeyB;
  }

  lemma CodeRoundTripKeyN()
    ensures CodeFromKey(KeyFromCode(49)) == Some(49)
  {
    assert KeyFromCode(49) == Key.KeyN;
  }

  lemma CodeRoundTripKeyM()
    ensures CodeFromKey(KeyFromCode(50)) == Some(50)
  {
    assert KeyFromCode(50) == Key.KeyM;
  }

  lemma CodeRoundTripComma()
    ensures CodeFromKey(KeyFromCode(51)) == Some(51)
  {
    assert KeyFromCode(51) == Key.Comma;
  }

  lemma CodeRoundTripDot()
    ensures CodeFromKey(KeyFromCode(52)) == Some(52)
  {
    assert KeyFromCode(52) == Key.Dot;
  }

  lemma CodeRoundTripSlash()
    ensures CodeFromKey(KeyFromCode(53)) == Some(53)
  {
    assert KeyFromCode(53) == Key.Slash;
  }

  lemma CodeRoundTripInsert()
    ensures CodeFromKey(KeyFromCode(111)) == Some(111)
  {
    assert KeyFromCode(111) == Key.Insert;
  }

  lemma CodeRoundTripKpReturn()
    ensures CodeFromKey(KeyFromCode(96)) == Some(96)
  {
    assert KeyFromCode(96) == Key.KpReturn;
  }

  lemma CodeRoundTripKpMinus()
    ensures CodeFromKey(KeyFromCode(74)) == Some(74)
  {
    assert KeyFromCode(74) == Key.KpMinus;
  }

  lemma CodeRoundTripKpPlus()
    ensures CodeFromKey(KeyFromCode(78)) == Some(78)
  {
    assert KeyFromCode(78) == Key.KpPlus;
  }

  lemma CodeRoundTripKpMultiply()
    ensures CodeFromKey(KeyFromCode(55)) == Some(55)
  {
    assert KeyFromCode(55) == Key.KpMultiply;
  }

  lemma CodeRoundTripKpDivide()
    ensures CodeFromKey(KeyFromCode(98)) == Some(98)
  {
    assert KeyFromCode(98) == Key.KpDivide;
  }

  lemma CodeRoundTripKp0()
    ensures CodeFromKey(KeyFromCode(82)) == Some(82)
  {
    assert KeyFromCode(82) == Key.Kp0;
  }

  lemma CodeRoundTripKp1()
    ensures CodeFromKey(KeyFromCode(79)) == Some(79)
  {
    assert KeyFromCode(79) == Key.Kp1;
  }

  lemma CodeRoundTripKp2()
    ensures CodeFromKey(KeyFromCode(80)) == Some(80)
  {
    assert KeyFromCode(80) == Key.Kp2;
  }

  lemma CodeRoundTripKp3()
    ensures CodeFromKey(KeyFromCode(81)) == Some(81)
  {
    assert KeyFromCode(81) == Key.Kp3;
  }

  lemma CodeRoundTripKp4()
    ensures CodeFromKey(KeyFromCode(75)) == Some(75)
  {
    assert KeyFromCode(75) == Key.Kp4;
  }

  lemma CodeRoundTripKp5()
    ensures CodeFromKey(KeyFromCode(76)) == Some(76)
  {
    assert KeyFromCode(76) == Key.Kp5;
  }

  lemma CodeRoundTripKp6()
    ensures CodeFromKey(KeyFromCode(77)) == Some(77)
  {
    assert KeyFromCode(77) == Key.Kp6;
  }

  lemma CodeRoundTripKp7()
    ensures CodeFromKey(KeyFromCode(71)) == Some(71)
  {
    assert KeyFromCode(71) == Key.Kp7;
  }

  lemma CodeRoundTripKp8()
    ensures CodeFromKey(KeyFromCode(72)) == Some(72)
  {
    assert KeyFromCode(72) == Key.Kp8;
  }

  lemma CodeRoundTripKp9()
    ensures CodeFromKey(KeyFromCode(73)) == Some(73)
  {
    assert KeyFromCode(73) == Key.Kp9;
  }

  lemma CodeRoundTripKpDelete()
    ensures CodeFromKey(KeyFromCode(83)) == Some(83)
  {
    assert KeyFromCode(83) == Key.KpDelete;
  }

  lemma CodeRoundTripVolumeMute()
    ensures CodeFromKey(KeyFromCode(113)) == Some(113)
  {
    assert KeyFromCode(113) == Key.VolumeMute;
  }

  lemma CodeRoundTripVolumeDown()
    ensures CodeFromKey(KeyFromCode(114)) == Some(114)
  {
    assert KeyFromCode(114) == Key.VolumeDown;
  }

  lemma CodeRoundTripVolumeUp()
    ensures CodeFromKey(KeyFromCode(115)) == Some(115)
  {
    assert KeyFromCode(115) == Key.VolumeUp;
  }

  lemma CodeRoundTripNextTrack()
    ensures CodeFromKey(KeyFromCode(163)) == Some(163)
  {
    assert KeyFromCode(163) == Key.NextTrack;
  }

  lemma CodeRoundTripPlayPause()
    ensures CodeFromKey(KeyFromCode(164)) == Some(164)
  {
    assert KeyFromCode(164) == Key.PlayPause;
  }

  lemma CodeRoundTripPreviousTrack()
    ensures CodeFromKey(KeyFromCode(165)) == Some(165)
  {
    assert KeyFromCode(165) == Key.PreviousTrack;
  }

  lemma CodeRoundTripPlayCd()
    ensures CodeFromKey(KeyFromCode(200)) == Some(200)
  {
    assert KeyFromCode(200) == Key.PlayCd;
  }

  lemma CodeRoundTripFunction()
    ensures CodeFromKey(KeyFromCode(464)) == Some(464)
  {
    assert KeyFromCode(464) == Key.Function;
  }

  lemma UinputHasNoCodeMetaRight()
    ensures UkeyFromKey(Key.MetaRight).None?
  {
  }

  lemma UinputHasNoCodeIntlBackslash()
    ensures UkeyFromKey(Key.IntlBackslash).None?
  {
  }

  lemma UinputHasNoCodeKpDelete()
    ensures UkeyFromKey(Key.KpDelete).None?
  {
  }

  lemma UinputHasNoCodeFunction()
    ensures UkeyFromKey(Key.Function).None?
  {
  }

  /** UinputUnmappedHasNoCode for the keys MetaRight to Function. */
  lemma UinputUnmappedHasNoCode0(key: Key)
    requires key.MetaRight? || key.IntlBackslash? || key.KpDelete? || key.Function?
    ensures UkeyFromKey(key).None?
  {
    if key.MetaRight? {
      UinputHasNoCodeMetaRight();
    } else if key.IntlBackslash? {
      UinputHasNoCodeIntlBackslash();
    } else if key.KpDelete? {
      UinputHasNoCodeKpDelete();
    } else {
      UinputHasNoCodeFunction();
    }
  }

  lemma UkeyRoundTripEscape()
    ensures UkeyFromKey(KeyFromUkey(1)) == Some(1)
  {
    assert KeyFromUkey(1) == Key.Escape;
  }

  lemma UkeyRoundTripNum1()
    ensures UkeyFromKey(KeyFromUkey(2)) == Some(2)
  {
    assert KeyFromUkey(2) == Key.Num1;
  }

  lemma UkeyRoundTripNum2()
    ensures UkeyFromKey(KeyFromUkey(3)) == Some(3)
  {
    assert KeyFromUkey(3) == Key.Num2;
  }

  lemma UkeyRoundTripNum3()
    ensures UkeyFromKey(KeyFromUkey(4)) == Some(4)
  {
    assert KeyFromUkey(4) == Key.Num3;
  }

  lemma UkeyRoundTripNum4()
    ensures UkeyFromKey(KeyFromUkey(5)) == Some(5)
  {
    assert KeyFromUkey(5) == Key.Num4;
  }

  lemma UkeyRoundTripNum5()
    ensures UkeyFromKey(KeyFromUkey(6)) == Some(6)
  {
    assert KeyFromUkey(6) == Key.Num5;
  }

  lemma UkeyRoundTripNum6()
    ensures UkeyFromKey(KeyFromUkey(7)) == Some(7)
  {
    assert KeyFromUkey(7) == Key.Num6;
  }

  lemma UkeyRoundTripNum7()
    ensures UkeyFromKey(KeyFromUkey(8)) == Some(8)
  {
    assert KeyFromUkey(8) == Key.Num7;
  }

  lemma UkeyRoundTripNum8()
    ensures UkeyFromKey(KeyFromUkey(9)) == Some(9)
  {
    assert KeyFromUkey(9) == Key.Num8;
  }

  lemma UkeyRoundTripNum9()
    ensures UkeyFromKey(KeyFromUkey(10)) == Some(10)
  {
    assert KeyFromUkey(10) == Key.Num9;
  }

  lemma UkeyRoundTripNum0()
    ensures UkeyFromKey(KeyFromUkey(11)) == Some(11)
  {
    assert KeyFromUkey(11) == Key.Num0;
  }

  lemma UkeyRoundTripMinus()
    ensures UkeyFromKey(KeyFromUkey(12)) == Some(12)
  {
    assert KeyFromUkey(12) == Key.Minus;
  }

  lemma UkeyRoundTripEqual()
    ensures UkeyFromKey(KeyFromUkey(13)) == Some(13)
  {
    assert KeyFromUkey(13) == Key.Equal;
  }

  lemma UkeyRoundTripBackspace()
    ensures UkeyFromKey(KeyFromUkey(14)) == Some(14)
  {
    assert KeyFromUkey(14) == Key.Backspace;
  }

  lemma UkeyRoundTripTab()
    ensures UkeyFromKey(KeyFromUkey(15)) == Some(15)
  {
    assert KeyFromUkey(15) == Key.Tab;
  }

  lemma UkeyRoundTripKeyQ()
    ensures UkeyFromKey(KeyFromUkey(16)) == Some(16)
  {
    assert KeyFromUkey(16) == Key.KeyQ;
  }

  lemma UkeyRoundTripKeyW()
    ensures UkeyFromKey(KeyFromUkey(17)) == Some(17)
  {
    assert KeyFromUkey(17) == Key.KeyW;
  }

  lemma UkeyRoundTripKeyE()
    ensures UkeyFromKey(KeyFromUkey(18)) == Some(18)
  {
    assert KeyFromUkey(18) == Key.KeyE;
  }

  lemma UkeyRoundTripKeyR()
    ensures UkeyFromKey(KeyFromUkey(19)) == Some(19)
  {
    assert KeyFromUkey(19) == Key.KeyR;
  }

  lemma UkeyRoundTripKeyT()
    ensures UkeyFromKey(KeyFromUkey(20)) == Some(20)
  {
    assert KeyFromUkey(20) == Key.KeyT;
  }

  lemma UkeyRoundTripKeyY()
    ensures UkeyFromKey(KeyFromUkey(21)) == Some(21)
  {
    assert KeyFromUkey(21) == Key.KeyY;
  }

  lemma UkeyRoundTripKeyU()
    ensures UkeyFromKey(KeyFromUkey(22)) == Some(22)
  {
    assert KeyFromUkey(22) == Key.KeyU;
  }

  lemma UkeyRoundTripKeyI()
    ensures UkeyFromKey(KeyFromUkey(23)) == Some(23)
  {
    assert KeyFromUkey(23) == Key.KeyI;
  }

  lemma UkeyRoundTripKeyO()
    ensures UkeyFromKey(KeyFromUkey(24)) == Some(24)
  {
    assert KeyFromUkey(24) == Key.KeyO;
  }

  lemma UkeyRoundTripKeyP()
    ensures UkeyFromKey(KeyFromUkey(25)) == Some(25)
  {
    assert KeyFromUkey(25) == Key.KeyP;
  }

  lemma UkeyRoundTripLeftBracket()
    ensures UkeyFromKey(KeyFromUkey(26)) == Some(26)
  {
    assert KeyFromUkey(26) == Key.LeftBracket;
  }

  lemma UkeyRoundTripRightBracket()
    ensures UkeyFromKey(KeyFromUkey(27)) == Some(27)
  {
    assert KeyFromUkey(27) == Key.RightBracket;
  }

  lemma UkeyRoundTripReturn()
    ensures UkeyFromKey(KeyFromUkey(28)) == Some(28)
  {
    assert KeyFromUkey(28) == Key.Return;
  }

  lemma UkeyRoundTripControlLeft()
    ensures UkeyFromKey(KeyFromUkey(29)) == Some(29)
  {
    assert KeyFromUkey(29) == Key.ControlLeft;
  }

  lemma UkeyRoundTripKeyA()
    ensures UkeyFromKey(KeyFromUkey(30)) == Some(30)
  {
    assert KeyFromUkey(30) == Key.KeyA;
  }

  lemma UkeyRoundTripKeyS()
    ensures UkeyFromKey(KeyFromUkey(31)) == Some(31)
  {
    assert KeyFromUkey(31) == Key.KeyS;
  }

  lemma UkeyRoundTripKeyD()
    ensures UkeyFromKey(KeyFromUkey(32)) == Some(32)
  {
    assert KeyFromUkey(32) == Key.KeyD;
  }

  lemma UkeyRoundTripKeyF()
    ensures UkeyFromKey(KeyFromUkey(33)) == Some(33)
  {
    assert KeyFromUkey(33) == Key.KeyF;
  }

  lemma UkeyRoundTripKeyG()
    ensures UkeyFromKey(KeyFromUkey(34)) == Some(34)
  {
    assert KeyFromUkey(34) == Key.KeyG;
  }

  lemma UkeyRoundTripKeyH()
    ensures UkeyFromKey(KeyFromUkey(35)) == Some(35)
  {
    assert KeyFromUkey(35) == Key.KeyH;
  }

  lemma UkeyRoundTripKeyJ()
    ensures UkeyFromKey(KeyFromUkey(36)) == Some(36)
  {
    assert KeyFromUkey(36) == Key.KeyJ;
  }

  lemma UkeyRoundTripKeyK()
    ensures UkeyFromKey(KeyFromUkey(37)) == Some(37)
  {
    assert KeyFromUkey(37) == Key.KeyK;
  }

  lemma UkeyRoundTripKeyL()
    ensures UkeyFromKey(KeyFromUkey(38)) == Some(38)
  {
    assert KeyFromUkey(38) == Key.KeyL;
  }

  lemma UkeyRoundTripSemiColon()
    ensures UkeyFromKey(KeyFromUkey(39)) == Some(39)
  {
    assert KeyFromUkey(39) == Key.SemiColon;
  }

  lemma UkeyRoundTripQuote()
    ensures UkeyFromKey(KeyFromUkey(40)) == Some(40)
  {
    assert KeyFromUkey(40) == Key.Quote;
  }

  lemma UkeyRoundTripBackQuote()
    ensures UkeyFromKey(KeyFromUkey(41)) == Some(41)
  {
    assert KeyFromUkey(41) == Key.BackQuote;
  }

  lemma UkeyRoundTripShiftLeft()
    ensures UkeyFromKey(KeyFromUkey(42)) == Some(42)
  {
    assert KeyFromUkey(42) == Key.ShiftLeft;
  }

  lemma UkeyRoundTripBackSlash()
    ensures UkeyFromKey(KeyFromUkey(43)) == Some(43)
  {
    assert KeyFromUkey(43) == Key.BackSlash;
  }

  lemma UkeyRoundTripKeyZ()
    ensures UkeyFromKey(KeyFromUkey(44)) == Some(44)
  {
    assert KeyFromUkey(44) == Key.KeyZ;
  }

  lemma UkeyRoundTripKeyX()
    ensures UkeyFromKey(KeyFromUkey(45)) == Some(45)
  {
    assert KeyFromUkey(45) == Key.KeyX;
  }

  lemma UkeyRoundTripKeyC()
    ensures UkeyFromKey(KeyFromUkey(46)) == Some(46)
  {
    assert KeyFromUkey(46) == Key.KeyC;
  }

  lemma UkeyRoundTripKeyV()
    ensures UkeyFromKey(KeyFromUkey(47)) == Some(47)
  {
    assert KeyFromUkey(47) == Key.KeyV;
  }

  lemma UkeyRoundTripKeyB()
    ensures UkeyFromKey(KeyFromUkey(48)) == Some(48)
  {
    assert KeyFromUkey(48) == Key.KeyB;
  }

  lemma UkeyRoundTripKeyN()
    ensures UkeyFromKey(KeyFromUkey(49)) == Some(49)
  {
    assert KeyFromUkey(49) == Key.KeyN;
  }

  lemma UkeyRoundTripKeyM()
    ensures UkeyFromKey(KeyFromUkey(50)) == Some(50)
  {
    assert KeyFromUkey(50) == Key.KeyM;
  }

  lemma UkeyRoundTripComma()
    ensures UkeyFromKey(KeyFromUkey(51)) == Some(51)
  {
    assert KeyFromUkey(51) == Key.Comma;
  }

  lemma UkeyRoundTripDot()
    ensures UkeyFromKey(KeyFromUkey(52)) == Some(52)
  {
    assert KeyFromUkey(52) == Key.Dot;
  }

  lemma UkeyRoundTripSlash()
    ensures UkeyFromKey(KeyFromUkey(53)) == Some(53)
  {
    assert KeyFromUkey(53) == Key.Slash;
  }

  lemma UkeyRoundTripShiftRight()
    ensures UkeyFromKey(KeyFromUkey(54)) == Some(54)
  {
    assert KeyFromUkey(54) == Key.ShiftRight;
  }

  lemma UkeyRoundTripKpMultiply()
    ensures UkeyFromKey(KeyFromUkey(55)) == Some(55)
  {
    assert KeyFromUkey(55) == Key.KpMultiply;
  }

  lemma UkeyRoundTripAlt()
    ensures UkeyFromKey(KeyFromUkey(56)) == Some(56)
  {
    assert KeyFromUkey(56) == Key.Alt;
  }

  lemma UkeyRoundTripSpace()
    ensures UkeyFromKey(KeyFromUkey(57)) == Some(57)
  {
    assert KeyFromUkey(57) == Key.Space;
  }

  lemma UkeyRoundTripCapsLock()
    ensures UkeyFromKey(KeyFromUkey(58)) == Some(58)
  {
    assert KeyFromUkey(58) == Key.CapsLock;
  }

  lemma UkeyRoundTripF1()
    ensures UkeyFromKey(KeyFromUkey(59)) == Some(59)
  {
    assert KeyFromUkey(59) == Key.F1;
  }

  lemma UkeyRoundTripF2()
    ensures UkeyFromKey(KeyFromUkey(60)) == Some(60)
  {
    assert KeyFromUkey(60) == Key.F2;
  }

  lemma UkeyRoundTripF3()
    ensures UkeyFromKey(KeyFromUkey(61)) == Some(61)
  {
    assert KeyFromUkey(61) == Key.F3;
  }

  lemma UkeyRoundTripF4()
    ensures UkeyFromKey(KeyFromUkey(62)) == Some(62)
  {
    assert KeyFromUkey(62) == Key.F4;
  }

  lemma UkeyRoundTripF5()
    ensures UkeyFromKey(KeyFromUkey(63)) == Some(63)
  {
    assert KeyFromUkey(63) == Key.F5;
  }

  lemma UkeyRoundTripF6()
    ensures UkeyFromKey(KeyFromUkey(64)) == Some(64)
  {
    assert KeyFromUkey(64) == Key.F6;
  }

  lemma UkeyRoundTripF7()
    ensures UkeyFromKey(KeyFromUkey(65)) == Some(65)
  {
    assert KeyFromUkey(65) == Key.F7;
  }

  lemma UkeyRoundTripF8()
    ensures UkeyFromKey(KeyFromUkey(66)) == Some(66)
  {
    assert KeyFromUkey(66) == Key.F8;
  }

  lemma UkeyRoundTripF9()
    ensures UkeyFromKey(KeyFromUkey(67)) == Some(67)
  {
    assert KeyFromUkey(67) == Key.F9;
  }

  lemma UkeyRoundTripF10()
    ensures UkeyFromKey(KeyFromUkey(68)) == Some(68)
  {
    assert KeyFromUkey(68) == Key.F10;
  }

  lemma UkeyRoundTripNumLock()
    ensures UkeyFromKey(KeyFromUkey(69)) == Some(69)
  {
    assert KeyFromUkey(69) == Key.NumLock;
  }

  lemma UkeyRoundTripScrollLock()
    ensures UkeyFromKey(KeyFromUkey(70)) == Some(70)
  {
    assert KeyFromUkey(70) == Key.ScrollLock;
  }

  lemma UkeyRoundTripKp7()
    ensures UkeyFromKey(KeyFromUkey(71)) == Some(71)
  {
    assert KeyFromUkey(71) == Key.Kp7;
  }

  lemma UkeyRoundTripKp8()
    ensures UkeyFromKey(KeyFromUkey(72)) == Some(72)
  {
    assert KeyFromUkey(72) == Key.Kp8;
  }

  lemma UkeyRoundTripKp9()
    ensures UkeyFromKey(KeyFromUkey(73)) == Some(73)
  {
    assert KeyFromUkey(73) == Key.Kp9;
  }

  lemma UkeyRoundTripKpMinus()
    ensures UkeyFromKey(KeyFromUkey(74)) == Some(74)
  {
    assert KeyFromUkey(74) == Key.KpMinus;
  }

  lemma UkeyRoundTripKp4()
    ensures UkeyFromKey(KeyFromUkey(75)) == Some(75)
  {
    assert KeyFromUkey(75) == Key.Kp4;
  }

  lemma UkeyRoundTripKp5()
    ensures UkeyFromKey(KeyFromUkey(76)) == Some(76)
  {
    assert KeyFromUkey(76) == Key.Kp5;
  }

  lemma UkeyRoundTripKp6()
    ensures UkeyFromKey(KeyFromUkey(77)) == Some(77)
  {
    assert KeyFromUkey(77) == Key.Kp6;
  }

  lemma UkeyRoundTripKpPlus()
    ensures UkeyFromKey(KeyFromUkey(78)) == Some(78)
  {
    assert KeyFromUkey(78) == Key.KpPlus;
  }

  lemma UkeyRoundTripKp1()
    ensures UkeyFromKey(KeyFromUkey(79)) == Some(79)
  {
    assert KeyFromUkey(79) == Key.Kp1;
  }

  lemma UkeyRoundTripKp2()
    ensures UkeyFromKey(KeyFromUkey(80)) == Some(80)
  {
    assert KeyFromUkey(80) == Key.Kp2;
  }

  lemma UkeyRoundTripKp3()
    ensures UkeyFromKey(KeyFromUkey(81)) == Some(81)
  {
    assert KeyFromUkey(81) == Key.Kp3;
  }

  lemma UkeyRoundTripKp0()
    ensures UkeyFromKey(KeyFromUkey(82)) == Some(82)
  {
    assert KeyFromUkey(82) == Key.Kp0;
  }

  lemma UkeyRoundTripF11()
    ensures UkeyFromKey(KeyFromUkey(87)) == Some(87)
  {
    assert KeyFromUkey(87) == Key.F11;
  }

  lemma UkeyRoundTripF12()
    ensures UkeyFromKey(KeyFromUkey(88)) == Some(88)
  {
    assert KeyFromUkey(88) == Key.F12;
  }

  lemma UkeyRoundTripKpReturn()
    ensures UkeyFromKey(KeyFromUkey(96)) == Some(96)
  {
    assert KeyFromUkey(96) == Key.KpReturn;
  }

  lemma UkeyRoundTripControlRight()
    ensures UkeyFromKey(KeyFromUkey(97)) == Some(97)
  {
    assert KeyFromUkey(97) == Key.ControlRight;
  }

  lemma UkeyRoundTripKpDivide()
    ensures UkeyFromKey(KeyFromUkey(98)) == Some(98)
  {
    assert KeyFromUkey(98) == Key.KpDivide;
  }

  lemma UkeyRoundTripAltGr()
    ensures UkeyFromKey(KeyFromUkey(100)) == Some(100)
  {
    assert KeyFromUkey(100) == Key.AltGr;
  }

  lemma UkeyRoundTripHome()
    ensures UkeyFromKey(KeyFromUkey(102)) == Some(102)
  {
    assert KeyFromUkey(102) == Key.Home;
  }

  lemma UkeyRoundTripUpArrow()
    ensures UkeyFromKey(KeyFromUkey(103)) == Some(103)
  {
    assert KeyFromUkey(103) == Key.UpArrow;
  }

  lemma UkeyRoundTripPageUp()
    ensures UkeyFromKey(KeyFromUkey(104)) == Some(104)
  {
    assert KeyFromUkey(104) == Key.PageUp;
  }

  lemma UkeyRoundTripLeftArrow()
    ensures UkeyFromKey(KeyFromUkey(105)) == Some(105)
  {
    assert KeyFromUkey(105) == Key.LeftArrow;
  }

  lemma UkeyRoundTripRightArrow()
    ensures UkeyFromKey(KeyFromUkey(106)) == Some(106)
  {
    assert KeyFromUkey(106) == Key.RightArrow;
  }

  lemma UkeyRoundTripEnd()
    ensures UkeyFromKey(KeyFromUkey(107)) == Some(107)
  {
    assert KeyFromUkey(107) == Key.End;
  }

  lemma UkeyRoundTripDownArrow()
    ensures UkeyFromKey(KeyFromUkey(108)) == Some(108)
  {
    assert KeyFromUkey(108) == Key.DownArrow;
  }

  lemma UkeyRoundTripPageDown()
    ensures UkeyFromKey(KeyFromUkey(109)) == Some(109)
  {
    assert KeyFromUkey(109) == Key.PageDown;
  }

  lemma UkeyRoundTripInsert()
    ensures UkeyFromKey(KeyFromUkey(110)) == Some(110)
  {
    assert KeyFromUkey(110) == Key.Insert;
  }

  lemma UkeyRoundTripDelete()
    ensures UkeyFromKey(KeyFromUkey(111)) == Some(111)
  {
    assert KeyFromUkey(111) == Key.Delete;
  }

  lemma UkeyRoundTripPause()
    ensures UkeyFromKey(KeyFromUkey(119)) == Some(119)
  {
    assert KeyFromUkey(119) == Key.Pause;
  }

  lemma UkeyRoundTripMetaLeft()
    ensures UkeyFromKey(KeyFromUkey(125)) == Some(125)
  {
    assert KeyFromUkey(125) == Key.MetaLeft;
  }

  lemma UkeyRoundTripPrintScreen()
    ensures UkeyFromKey(KeyFromUkey(210)) == Some(210)
  {
    assert KeyFromUkey(210) == Key.PrintScreen;
  }

  lemma UkeyRoundTripPlayPause()
    ensures UkeyFromKey(KeyFromUkey(164)) == Some(164)
  {
    assert KeyFromUkey(164) == Key.PlayPause;
  }

  lemma UkeyRoundTripPlayCd()
    ensures UkeyFromKey(KeyFromUkey(200)) == Some(200)
  {
    assert KeyFromUkey(200) == Key.PlayCd;
  }

  lemma UkeyRoundTripVolumeMute()
    ensures UkeyFromKey(KeyFromUkey(113)) == Some(113)
  {
    assert KeyFromUkey(113) == Key.VolumeMute;
  }

  lemma UkeyRoundTripVolumeDown()
    ensures UkeyFromKey(KeyFromUkey(114)) == Some(114)
  {
    assert KeyFromUkey(114) == Key.VolumeDown;
  }

  lemma UkeyRoundTripVolumeUp()
    ensures UkeyFromKey(KeyFromUkey(115)) == Some(115)
  {
    assert KeyFromUkey(115) == Key.VolumeUp;
  }

  lemma UkeyRoundTripNextTrack()
    ensures UkeyFromKey(KeyFromUkey(163)) == Some(163)
  {
    assert KeyFromUkey(163) == Key.NextTrack;
  }

  lemma UkeyRoundTripPreviousTrack()
    ensures UkeyFromKey(KeyFromUkey(165)) == Some(165)
  {
    assert KeyFromUkey(165) == Key.PreviousTrack;
  }
}
