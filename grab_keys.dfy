/** The `EV_KEY` tables of the evdev grab: raw kernel key codes to `Button` and `Key`.
    Only the decoding direction exists. Where the source lists a code twice, the first arm
    wins: `KEY_DELETE` gives `Delete` (never `KpDelete`) and `KEY_BACKSLASH` gives `BackSlash`
    (never `IntlBackslash`). */
module GrabKeys {
  import opened Ints
  import opened Wrappers
  import opened Rdev
  import EvdevKeycodes

  /** The kernel codes of the three mouse buttons. */
  const BTN_LEFT: u16 := 0x110
  const BTN_RIGHT: u16 := 0x111
  const BTN_MIDDLE: u16 := 0x112

  /** `evdev_key_to_rdev_button`. */
  function EvdevKeyToRdevButton(code: u16): (r: Option<Button>)
    ensures r.Some? <==> code == BTN_LEFT || code == BTN_RIGHT || code == BTN_MIDDLE
    ensures r.Some? ==> !r.value.Unknown?
  {
    if code == BTN_LEFT then Some(Left)
    else if code == BTN_RIGHT then Some(Right)
    else if code == BTN_MIDDLE then Some(Middle)
    else None
  }

  /** `evdev_key_to_rdev_key`, with the unreachable duplicate arms left out. */
  function EvdevKeyToRdevKey(code: u16): (r: Option<Key>)
    ensures r.Some? ==> !r.value.Unknown?
  {
    match code
    case 56 => Some(Key.Alt)  // KEY_LEFTALT
    case 100 => Some(Key.AltGr)  // KEY_RIGHTALT
    case 14 => Some(Key.Backspace)  // KEY_BACKSPACE
    case 58 => Some(Key.CapsLock)  // KEY_CAPSLOCK
    case 29 => Some(Key.ControlLeft)  // KEY_LEFTCTRL
    case 97 => Some(Key.ControlRight)  // KEY_RIGHTCTRL
    case 111 => Some(Key.Delete)  // KEY_DELETE
    case 108 => Some(Key.DownArrow)  // KEY_DOWN
    case 107 => Some(Key.End)  // KEY_END
    case 1 => Some(Key.Escape)  // KEY_ESC
    case 59 => Some(Key.F1)  // KEY_F1
    case 68 => Some(Key.F10)  // KEY_F10
    case 87 => Some(Key.F11)  // KEY_F11
    case 88 => Some(Key.F12)  // KEY_F12
    case 60 => Some(Key.F2)  // KEY_F2
    case 61 => Some(Key.F3)  // KEY_F3
    case 62 => Some(Key.F4)  // KEY_F4
    case 63 => Some(Key.F5)  // KEY_F5
    case 64 => Some(Key.F6)  // KEY_F6
    case 65 => Some(Key.F7)  // KEY_F7
    case 66 => Some(Key.F8)  // KEY_F8
    case 67 => Some(Key.F9)  // KEY_F9
    case 102 => Some(Key.Home)  // KEY_HOME
    case 105 => Some(Key.LeftArrow)  // KEY_LEFT
    case 125 => Some(Key.MetaLeft)  // KEY_LEFTMETA
    case 126 => Some(Key.MetaRight)  // KEY_RIGHTMETA
    case 109 => Some(Key.PageDown)  // KEY_PAGEDOWN
    case 104 => Some(Key.PageUp)  // KEY_PAGEUP
    case 28 => Some(Key.Return)  // KEY_ENTER
    case 106 => Some(Key.RightArrow)  // KEY_RIGHT
    case 42 => Some(Key.ShiftLeft)  // KEY_LEFTSHIFT
    case 54 => Some(Key.ShiftRight)  // KEY_RIGHTSHIFT
    case 57 => Some(Key.Space)  // KEY_SPACE
    case 15 => Some(Key.Tab)  // KEY_TAB
    case 103 => Some(Key.UpArrow)  // KEY_UP
    case 210 => Some(Key.PrintScreen)  // KEY_PRINT
    case 70 => Some(Key.ScrollLock)  // KEY_SCROLLLOCK
    case 119 => Some(Key.Pause)  // KEY_PAUSE
    case 69 => Some(Key.NumLock)  // KEY_NUMLOCK
    case 41 => Some(Key.BackQuote)  // KEY_GRAVE
    case 2 => Some(Key.Num1)  // KEY_1
    case 3 => Some(Key.Num2)  // KEY_2
    case 4 => Some(Key.Num3)  // KEY_3
    case 5 => Some(Key.Num4)  // KEY_4
    case 6 => Some(Key.Num5)  // KEY_5
    case 7 => Some(Key.Num6)  // KEY_6
    case 8 => Some(Key.Num7)  // KEY_7
    case 9 => Some(Key.Num8)  // KEY_8
    case 10 => Some(Key.Num9)  // KEY_9
    case 11 => Some(Key.Num0)  // KEY_0
    case 12 => Some(Key.Minus)  // KEY_MINUS
    case 13 => Some(Key.Equal)  // KEY_EQUAL
    case 16 => Some(Key.KeyQ)  // KEY_Q
    case 17 => Some(Key.KeyW)  // KEY_W
    case 18 => Some(Key.KeyE)  // KEY_E
    case 19 => Some(Key.KeyR)  // KEY_R
    case 20 => Some(Key.KeyT)  // KEY_T
    case 21 => Some(Key.KeyY)  // KEY_Y
    case 22 => Some(Key.KeyU)  // KEY_U
    case 23 => Some(Key.KeyI)  // KEY_I
    case 24 => Some(Key.KeyO)  // KEY_O
    case 25 => Some(Key.KeyP)  // KEY_P
    case 26 => Some(Key.LeftBracket)  // KEY_LEFTBRACE
    case 27 => Some(Key.RightBracket)  // KEY_RIGHTBRACE
    case 30 => Some(Key.KeyA)  // KEY_A
    case 31 => Some(Key.KeyS)  // KEY_S
    case 32 => Some(Key.KeyD)  // KEY_D
    case 33 => Some(Key.KeyF)  // KEY_F
    case 34 => Some(Key.KeyG)  // KEY_G
    case 35 => Some(Key.KeyH)  // KEY_H
    case 36 => Some(Key.KeyJ)  // KEY_J
    case 37 => Some(Key.KeyK)  // KEY_K
    case 38 => Some(Key.KeyL)  // KEY_L
    case 39 => Some(Key.SemiColon)  // KEY_SEMICOLON
    case 40 => Some(Key.Quote)  // KEY_APOSTROPHE
    case 43 => Some(Key.BackSlash)  // KEY_BACKSLASH
    case 44 => Some(Key.KeyZ)  // KEY_Z
    case 45 => Some(Key.KeyX)  // KEY_X
    case 46 => Some(Key.KeyC)  // KEY_C
    case 47 => Some(Key.KeyV)  // KEY_V
    case 48 => Some(Key.KeyB)  // KEY_B
    case 49 => Some(Key.KeyN)  // KEY_N
    case 50 => Some(Key.KeyM)  // KEY_M
    case 51 => Some(Key.Comma)  // KEY_COMMA
    case 52 => Some(Key.Dot)  // KEY_DOT
    case 53 => Some(Key.Slash)  // KEY_SLASH
    case 110 => Some(Key.Insert)  // KEY_INSERT
    case 96 => Some(Key.KpReturn)  // KEY_KPENTER
    case 74 => Some(Key.KpMinus)  // KEY_KPMINUS
    case 78 => Some(Key.KpPlus)  // KEY_KPPLUS
    case 55 => Some(Key.KpMultiply)  // KEY_KPASTERISK
    case 98 => Some(Key.KpDivide)  // KEY_KPSLASH
    case 82 => Some(Key.Kp0)  // KEY_KP0
    case 79 => Some(Key.Kp1)  // KEY_KP1
    case 80 => Some(Key.Kp2)  // KEY_KP2
    case 81 => Some(Key.Kp3)  // KEY_KP3
    case 75 => Some(Key.Kp4)  // KEY_KP4
    case 76 => Some(Key.Kp5)  // KEY_KP5
    case 77 => Some(Key.Kp6)  // KEY_KP6
    case 71 => Some(Key.Kp7)  // KEY_KP7
    case 72 => Some(Key.Kp8)  // KEY_KP8
    case 73 => Some(Key.Kp9)  // KEY_KP9
    case _ => None
  }

  /** The codes listed twice decode by their first arm. */
  lemma DuplicateArmsFirstWins()
    ensures EvdevKeyToRdevKey(111) == Some(Delete)
    ensures EvdevKeyToRdevKey(43) == Some(BackSlash)
  {
  }

  /** The grab decoder and the listen decoder read `KEY_DELETE` (111) differently: the
      evdev table used for listening numbers Insert and Delete the other way round. */
  lemma DeleteDiffersFromListenTable()
    ensures EvdevKeyToRdevKey(111) == Some(Delete) && EvdevKeycodes.KeyFromCode(111) == Insert
    ensures EvdevKeyToRdevKey(110) == Some(Insert) && EvdevKeycodes.KeyFromCode(110) == Delete
  {
    assert EvdevKeycodes.KeyFromCode(111) == Insert;
    assert EvdevKeycodes.KeyFromCode(110) == Delete;
  }

  /** A key the grab decodes, other than MetaRight (which uinput cannot emit), is injected
      through uinput under the very code it was decoded from. */
  lemma GrabbedKeyReinjects(code: u16)
    ensures var k := EvdevKeyToRdevKey(code);
      k.Some? ==> if k.value == MetaRight then EvdevKeycodes.UkeyFromKey(k.value).None?
                  else EvdevKeycodes.UkeyFromKey(k.value) == Some(code)
  {
    if code < 52 {
      GrabbedKeyReinjectsBelow(code);
    } else {
      GrabbedKeyReinjectsFrom(code);
    }
  }


  /** The duplicate arms are unreachable: no code decodes to KpDelete or IntlBackslash, as
      neither has a uinput code to come back under. */
  lemma NeverKpDeleteOrIntlBackslash(code: u16)
    ensures EvdevKeyToRdevKey(code) != Some(KpDelete) && EvdevKeyToRdevKey(code) != Some(IntlBackslash)
  {
    GrabbedKeyReinjects(code);
    EvdevKeycodes.UinputUnmappedHasNoCode(KpDelete);
    EvdevKeycodes.UinputUnmappedHasNoCode(IntlBackslash);
  }

  // Proof scaffolding. The lemmas below only split the case analysis of the lemmas above
  // into pieces the verifier handles quickly: one per table row, per key or per group, and
  // the chunks that gather them. They state nothing beyond those lemmas.

  lemma GrabReinjectEscape()
    ensures EvdevKeycodes.UkeyFromKey(EvdevKeyToRdevKey(1).value) == Some(1)
  {
    assert EvdevKeyToRdevKey(1) == Some(Key.Escape);
  }

  lemma GrabReinjectNum1()
    ensures EvdevKeycodes.UkeyFromKey(EvdevKeyToRdevKey(2).value) == Some(2)
  {
    assert EvdevKeyToRdevKey(2) == Some(Key.Num1);
  }

  lemma GrabReinjectNum2()
    ensures EvdevKeycodes.UkeyFromKey(EvdevKeyToRdevKey(3).value) == Some(3)
  {
    assert EvdevKeyToRdevKey(3) == Some(Key.Num2);
  }

  lemma GrabReinjectNum3()
    ensures EvdevKeycodes.UkeyFromKey(EvdevKeyToRdevKey(4).value) == Some(4)
  {
    assert EvdevKeyToRdevKey(4) == Some(Key.Num3);
  }

  lemma GrabReinjectNum4()
    ensures EvdevKeycodes.UkeyFromKey(EvdevKeyToRdevKey(5).value) == Some(5)
  {
    assert EvdevKeyToRdevKey(5) == Some(Key.Num4);
  }

  lemma GrabReinjectNum5()
    ensures EvdevKeycodes.UkeyFromKey(EvdevKeyToRdevKey(6).value) == Some(6)
  {
    assert EvdevKeyToRdevKey(6) == Some(Key.Num5);
  }

  lemma GrabReinjectNum6()
    ensures EvdevKeycodes.UkeyFromKey(EvdevKeyToRdevKey(7).value) == Some(7)
  {
    assert EvdevKeyToRdevKey(7) == Some(Key.Num6);
  }

  lemma GrabReinjectNum7()
    ensures EvdevKeycodes.UkeyFromKey(EvdevKeyToRdevKey(8).value) == Some(8)
  {
    assert EvdevKeyToRdevKey(8) == Some(Key.Num7);
  }

  lemma GrabReinjectNum8()
    ensures EvdevKeycodes.UkeyFromKey(EvdevKeyToRdevKey(9).value) == Some(9)
  {
    assert EvdevKeyToRdevKey(9) == Some(Key.Num8);
  }

  lemma GrabReinjectNum9()
    ensures EvdevKeycodes.UkeyFromKey(EvdevKeyToRdevKey(10).value) == Some(10)
  {
    assert EvdevKeyToRdevKey(10) == Some(Key.Num9);
  }

  lemma GrabReinjectNum0()
    ensures EvdevKeycodes.UkeyFromKey(EvdevKeyToRdevKey(11).value) == Some(11)
  {
    assert EvdevKeyToRdevKey(11) == Some(Key.Num0);
  }

  lemma GrabReinjectMinus()
    ensures EvdevKeycodes.UkeyFromKey(EvdevKeyToRdevKey(12).value) == Some(12)
  {
    assert EvdevKeyToRdevKey(12) == Some(Key.Minus);
  }

  lemma GrabReinjectEqual()
    ensures EvdevKeycodes.UkeyFromKey(EvdevKeyToRdevKey(13).value) == Some(13)
  {
    assert EvdevKeyToRdevKey(13) == Some(Key.Equal);
  }

  lemma GrabReinjectBackspace()
    ensures EvdevKeycodes.UkeyFromKey(EvdevKeyToRdevKey(14).value) == Some(14)
  {
    assert EvdevKeyToRdevKey(14) == Some(Key.Backspace);
  }

  lemma GrabReinjectTab()
    ensures EvdevKeycodes.UkeyFromKey(EvdevKeyToRdevKey(15).value) == Some(15)
  {
    assert EvdevKeyToRdevKey(15) == Some(Key.Tab);
  }

  lemma GrabReinjectKeyQ()
    ensures EvdevKeycodes.UkeyFromKey(EvdevKeyToRdevKey(16).value) == Some(16)
  {
    assert EvdevKeyToRdevKey(16) == Some(Key.KeyQ);
  }

  lemma GrabReinjectKeyW()
    ensures EvdevKeycodes.UkeyFromKey(EvdevKeyToRdevKey(17).value) == Some(17)
  {
    assert EvdevKeyToRdevKey(17) == Some(Key.KeyW);
  }

  lemma GrabReinjectKeyE()
    ensures EvdevKeycodes.UkeyFromKey(EvdevKeyToRdevKey(18).value) == Some(18)
  {
    assert EvdevKeyToRdevKey(18) == Some(Key.KeyE);
  }

  lemma GrabReinjectKeyR()
    ensures EvdevKeycodes.UkeyFromKey(EvdevKeyToRdevKey(19).value) == Some(19)
  {
    assert EvdevKeyToRdevKey(19) == Some(Key.KeyR);
  }

  lemma GrabReinjectKeyT()
    ensures EvdevKeycodes.UkeyFromKey(EvdevKeyToRdevKey(20).value) == Some(20)
  {
    assert EvdevKeyToRdevKey(20) == Some(Key.KeyT);
  }

  lemma GrabReinjectKeyY()
    ensures EvdevKeycodes.UkeyFromKey(EvdevKeyToRdevKey(21).value) == Some(21)
  {
    assert EvdevKeyToRdevKey(21) == Some(Key.KeyY);
  }

  lemma GrabReinjectKeyU()
    ensures EvdevKeycodes.UkeyFromKey(EvdevKeyToRdevKey(22).value) == Some(22)
  {
    assert EvdevKeyToRdevKey(22) == Some(Key.KeyU);
  }

  lemma GrabReinjectKeyI()
    ensures EvdevKeycodes.UkeyFromKey(EvdevKeyToRdevKey(23).value) == Some(23)
  {
    assert EvdevKeyToRdevKey(23) == Some(Key.KeyI);
  }

  lemma GrabReinjectKeyO()
    ensures EvdevKeycodes.UkeyFromKey(EvdevKeyToRdevKey(24).value) == Some(24)
  {
    assert EvdevKeyToRdevKey(24) == Some(Key.KeyO);
  }

  lemma GrabReinjectKeyP()
    ensures EvdevKeycodes.UkeyFromKey(EvdevKeyToRdevKey(25).value) == Some(25)
  {
    assert EvdevKeyToRdevKey(25) == Some(Key.KeyP);
  }

  lemma GrabReinjectLeftBracket()
    ensures EvdevKeycodes.UkeyFromKey(EvdevKeyToRdevKey(26).value) == Some(26)
  {
    assert EvdevKeyToRdevKey(26) == Some(Key.LeftBracket);
  }

  lemma GrabReinjectRightBracket()
    ensures EvdevKeycodes.UkeyFromKey(EvdevKeyToRdevKey(27).value) == Some(27)
  {
    assert EvdevKeyToRdevKey(27) == Some(Key.RightBracket);
  }

  lemma GrabReinjectReturn()
    ensures EvdevKeycodes.UkeyFromKey(EvdevKeyToRdevKey(28).value) == Some(28)
  {
    assert EvdevKeyToRdevKey(28) == Some(Key.Return);
  }

  lemma GrabReinjectControlLeft()
    ensures EvdevKeycodes.UkeyFromKey(EvdevKeyToRdevKey(29).value) == Some(29)
  {
    assert EvdevKeyToRdevKey(29) == Some(Key.ControlLeft);
  }

  lemma GrabReinjectKeyA()
    ensures EvdevKeycodes.UkeyFromKey(EvdevKeyToRdevKey(30).value) == Some(30)
  {
    assert EvdevKeyToRdevKey(30) == Some(Key.KeyA);
  }

  lemma GrabReinjectKeyS()
    ensures EvdevKeycodes.UkeyFromKey(EvdevKeyToRdevKey(31).value) == Some(31)
  {
    assert EvdevKeyToRdevKey(31) == Some(Key.KeyS);
  }

  lemma GrabReinjectKeyD()
    ensures EvdevKeycodes.UkeyFromKey(EvdevKeyToRdevKey(32).value) == Some(32)
  {
    assert EvdevKeyToRdevKey(32) == Some(Key.KeyD);
  }

  lemma GrabReinjectKeyF()
    ensures EvdevKeycodes.UkeyFromKey(EvdevKeyToRdevKey(33).value) == Some(33)
  {
    assert EvdevKeyToRdevKey(33) == Some(Key.KeyF);
  }

  lemma GrabReinjectKeyG()
    ensures EvdevKeycodes.UkeyFromKey(EvdevKeyToRdevKey(34).value) == Some(34)
  {
    assert EvdevKeyToRdevKey(34) == Some(Key.KeyG);
  }

  lemma GrabReinjectKeyH()
    ensures EvdevKeycodes.UkeyFromKey(EvdevKeyToRdevKey(35).value) == Some(35)
  {
    assert EvdevKeyToRdevKey(35) == Some(Key.KeyH);
  }

  lemma GrabReinjectKeyJ()
    ensures EvdevKeycodes.UkeyFromKey(EvdevKeyToRdevKey(36).value) == Some(36)
  {
    assert EvdevKeyToRdevKey(36) == Some(Key.KeyJ);
  }

  lemma GrabReinjectKeyK()
    ensures EvdevKeycodes.UkeyFromKey(EvdevKeyToRdevKey(37).value) == Some(37)
  {
    assert EvdevKeyToRdevKey(37) == Some(Key.KeyK);
  }

  lemma GrabReinjectKeyL()
    ensures EvdevKeycodes.UkeyFromKey(EvdevKeyToRdevKey(38).value) == Some(38)
  {
    assert EvdevKeyToRdevKey(38) == Some(Key.KeyL);
  }

  lemma GrabReinjectSemiColon()
    ensures EvdevKeycodes.UkeyFromKey(EvdevKeyToRdevKey(39).value) == Some(39)
  {
    assert EvdevKeyToRdevKey(39) == Some(Key.SemiColon);
  }

  lemma GrabReinjectQuote()
    ensures EvdevKeycodes.UkeyFromKey(EvdevKeyToRdevKey(40).value) == Some(40)
  {
    assert EvdevKeyToRdevKey(40) == Some(Key.Quote);
  }

  lemma GrabReinjectBackQuote()
    ensures EvdevKeycodes.UkeyFromKey(EvdevKeyToRdevKey(41).value) == Some(41)
  {
    assert EvdevKeyToRdevKey(41) == Some(Key.BackQuote);
  }

  lemma GrabReinjectShiftLeft()
    ensures EvdevKeycodes.UkeyFromKey(EvdevKeyToRdevKey(42).value) == Some(42)
  {
    assert EvdevKeyToRdevKey(42) == Some(Key.ShiftLeft);
  }

  lemma GrabReinjectBackSlash()
    ensures EvdevKeycodes.UkeyFromKey(EvdevKeyToRdevKey(43).value) == Some(43)
  {
    assert EvdevKeyToRdevKey(43) == Some(Key.BackSlash);
  }

  lemma GrabReinjectKeyZ()
    ensures EvdevKeycodes.UkeyFromKey(EvdevKeyToRdevKey(44).value) == Some(44)
  {
    assert EvdevKeyToRdevKey(44) == Some(Key.KeyZ);
  }

  lemma GrabReinjectKeyX()
    ensures EvdevKeycodes.UkeyFromKey(EvdevKeyToRdevKey(45).value) == Some(45)
  {
    assert EvdevKeyToRdevKey(45) == Some(Key.KeyX);
  }

  lemma GrabReinjectKeyC()
    ensures EvdevKeycodes.UkeyFromKey(EvdevKeyToRdevKey(46).value) == Some(46)
  {
    assert EvdevKeyToRdevKey(46) == Some(Key.KeyC);
  }

  lemma GrabReinjectKeyV()
    ensures EvdevKeycodes.UkeyFromKey(EvdevKeyToRdevKey(47).value) == Some(47)
  {
    assert EvdevKeyToRdevKey(47) == Some(Key.KeyV);
  }

  lemma GrabReinjectKeyB()
    ensures EvdevKeycodes.UkeyFromKey(EvdevKeyToRdevKey(48).value) == Some(48)
  {
    assert EvdevKeyToRdevKey(48) == Some(Key.KeyB);
  }

  lemma GrabReinjectKeyN()
    ensures EvdevKeycodes.UkeyFromKey(EvdevKeyToRdevKey(49).value) == Some(49)
  {
    assert EvdevKeyToRdevKey(49) == Some(Key.KeyN);
  }

  lemma GrabReinjectKeyM()
    ensures EvdevKeycodes.UkeyFromKey(EvdevKeyToRdevKey(50).value) == Some(50)
  {
    assert EvdevKeyToRdevKey(50) == Some(Key.KeyM);
  }

  lemma GrabReinjectComma()
    ensures EvdevKeycodes.UkeyFromKey(EvdevKeyToRdevKey(51).value) == Some(51)
  {
    assert EvdevKeyToRdevKey(51) == Some(Key.Comma);
  }

  lemma GrabReinjectDot()
    ensures EvdevKeycodes.UkeyFromKey(EvdevKeyToRdevKey(52).value) == Some(52)
  {
    assert EvdevKeyToRdevKey(52) == Some(Key.Dot);
  }

  lemma GrabReinjectSlash()
    ensures EvdevKeycodes.UkeyFromKey(EvdevKeyToRdevKey(53).value) == Some(53)
  {
    assert EvdevKeyToRdevKey(53) == Some(Key.Slash);
  }

  lemma GrabReinjectShiftRight()
    ensures EvdevKeycodes.UkeyFromKey(EvdevKeyToRdevKey(54).value) == Some(54)
  {
    assert EvdevKeyToRdevKey(54) == Some(Key.ShiftRight);
  }

  lemma GrabReinjectKpMultiply()
    ensures EvdevKeycodes.UkeyFromKey(EvdevKeyToRdevKey(55).value) == Some(55)
  {
    assert EvdevKeyToRdevKey(55) == Some(Key.KpMultiply);
  }

  lemma GrabReinjectAlt()
    ensures EvdevKeycodes.UkeyFromKey(EvdevKeyToRdevKey(56).value) == Some(56)
  {
    assert EvdevKeyToRdevKey(56) == Some(Key.Alt);
  }

  lemma GrabReinjectSpace()
    ensures EvdevKeycodes.UkeyFromKey(EvdevKeyToRdevKey(57).value) == Some(57)
  {
    assert EvdevKeyToRdevKey(57) == Some(Key.Space);
  }

  lemma GrabReinjectCapsLock()
    ensures EvdevKeycodes.UkeyFromKey(EvdevKeyToRdevKey(58).value) == Some(58)
  {
    assert EvdevKeyToRdevKey(58) == Some(Key.CapsLock);
  }

  lemma GrabReinjectF1()
    ensures EvdevKeycodes.UkeyFromKey(EvdevKeyToRdevKey(59).value) == Some(59)
  {
    assert EvdevKeyToRdevKey(59) == Some(Key.F1);
  }

  lemma GrabReinjectF2()
    ensures EvdevKeycodes.UkeyFromKey(EvdevKeyToRdevKey(60).value) == Some(60)
  {
    assert EvdevKeyToRdevKey(60) == Some(Key.F2);
  }

  lemma GrabReinjectF3()
    ensures EvdevKeycodes.UkeyFromKey(EvdevKeyToRdevKey(61).value) == Some(61)
  {
    assert EvdevKeyToRdevKey(61) == Some(Key.F3);
  }

  lemma GrabReinjectF4()
    ensures EvdevKeycodes.UkeyFromKey(EvdevKeyToRdevKey(62).value) == Some(62)
  {
    assert EvdevKeyToRdevKey(62) == Some(Key.F4);
  }

  lemma GrabReinjectF5()
    ensures EvdevKeycodes.UkeyFromKey(EvdevKeyToRdevKey(63).value) == Some(63)
  {
    assert EvdevKeyToRdevKey(63) == Some(Key.F5);
  }

  lemma GrabReinjectF6()
    ensures EvdevKeycodes.UkeyFromKey(EvdevKeyToRdevKey(64).value) == Some(64)
  {
    assert EvdevKeyToRdevKey(64) == Some(Key.F6);
  }

  lemma GrabReinjectF7()
    ensures EvdevKeycodes.UkeyFromKey(EvdevKeyToRdevKey(65).value) == Some(65)
  {
    assert EvdevKeyToRdevKey(65) == Some(Key.F7);
  }

  lemma GrabReinjectF8()
    ensures EvdevKeycodes.UkeyFromKey(EvdevKeyToRdevKey(66).value) == Some(66)
  {
    assert EvdevKeyToRdevKey(66) == Some(Key.F8);
  }

  lemma GrabReinjectF9()
    ensures EvdevKeycodes.UkeyFromKey(EvdevKeyToRdevKey(67).value) == Some(67)
  {
    assert EvdevKeyToRdevKey(67) == Some(Key.F9);
  }

  lemma GrabReinjectF10()
    ensures EvdevKeycodes.UkeyFromKey(EvdevKeyToRdevKey(68).value) == Some(68)
  {
    assert EvdevKeyToRdevKey(68) == Some(Key.F10);
  }

  lemma GrabReinjectNumLock()
    ensures EvdevKeycodes.UkeyFromKey(EvdevKeyToRdevKey(69).value) == Some(69)
  {
    assert EvdevKeyToRdevKey(69) == Some(Key.NumLock);
  }

  lemma GrabReinjectScrollLock()
    ensures EvdevKeycodes.UkeyFromKey(EvdevKeyToRdevKey(70).value) == Some(70)
  {
    assert EvdevKeyToRdevKey(70) == Some(Key.ScrollLock);
  }

  lemma GrabReinjectKp7()
    ensures EvdevKeycodes.UkeyFromKey(EvdevKeyToRdevKey(71).value) == Some(71)
  {
    assert EvdevKeyToRdevKey(71) == Some(Key.Kp7);
  }

  lemma GrabReinjectKp8()
    ensures EvdevKeycodes.UkeyFromKey(EvdevKeyToRdevKey(72).value) == Some(72)
  {
    assert EvdevKeyToRdevKey(72) == Some(Key.Kp8);
  }

  lemma GrabReinjectKp9()
    ensures EvdevKeycodes.UkeyFromKey(EvdevKeyToRdevKey(73).value) == Some(73)
  {
    assert EvdevKeyToRdevKey(73) == Some(Key.Kp9);
  }

  lemma GrabReinjectKpMinus()
    ensures EvdevKeycodes.UkeyFromKey(EvdevKeyToRdevKey(74).value) == Some(74)
  {
    assert EvdevKeyToRdevKey(74) == Some(Key.KpMinus);
  }

  lemma GrabReinjectKp4()
    ensures EvdevKeycodes.UkeyFromKey(EvdevKeyToRdevKey(75).value) == Some(75)
  {
    assert EvdevKeyToRdevKey(75) == Some(Key.Kp4);
  }

  lemma GrabReinjectKp5()
    ensures EvdevKeycodes.UkeyFromKey(EvdevKeyToRdevKey(76).value) == Some(76)
  {
    assert EvdevKeyToRdevKey(76) == Some(Key.Kp5);
  }

  lemma GrabReinjectKp6()
    ensures EvdevKeycodes.UkeyFromKey(EvdevKeyToRdevKey(77).value) == Some(77)
  {
    assert EvdevKeyToRdevKey(77) == Some(Key.Kp6);
  }

  lemma GrabReinjectKpPlus()
    ensures EvdevKeycodes.UkeyFromKey(EvdevKeyToRdevKey(78).value) == Some(78)
  {
    assert EvdevKeyToRdevKey(78) == Some(Key.KpPlus);
  }

  lemma GrabReinjectKp1()
    ensures EvdevKeycodes.UkeyFromKey(EvdevKeyToRdevKey(79).value) == Some(79)
  {
    assert EvdevKeyToRdevKey(79) == Some(Key.Kp1);
  }

  lemma GrabReinjectKp2()
    ensures EvdevKeycodes.UkeyFromKey(EvdevKeyToRdevKey(80).value) == Some(80)
  {
    assert EvdevKeyToRdevKey(80) == Some(Key.Kp2);
  }

  lemma GrabReinjectKp3()
    ensures EvdevKeycodes.UkeyFromKey(EvdevKeyToRdevKey(81).value) == Some(81)
  {
    assert EvdevKeyToRdevKey(81) == Some(Key.Kp3);
  }

  lemma GrabReinjectKp0()
    ensures EvdevKeycodes.UkeyFromKey(EvdevKeyToRdevKey(82).value) == Some(82)
  {
    assert EvdevKeyToRdevKey(82) == Some(Key.Kp0);
  }

  lemma GrabReinjectF11()
    ensures EvdevKeycodes.UkeyFromKey(EvdevKeyToRdevKey(87).value) == Some(87)
  {
    assert EvdevKeyToRdevKey(87) == Some(Key.F11);
  }

  lemma GrabReinjectF12()
    ensures EvdevKeycodes.UkeyFromKey(EvdevKeyToRdevKey(88).value) == Some(88)
  {
    assert EvdevKeyToRdevKey(88) == Some(Key.F12);
  }

  lemma GrabReinjectKpReturn()
    ensures EvdevKeycodes.UkeyFromKey(EvdevKeyToRdevKey(96).value) == Some(96)
  {
    assert EvdevKeyToRdevKey(96) == Some(Key.KpReturn);
  }

  lemma GrabReinjectControlRight()
    ensures EvdevKeycodes.UkeyFromKey(EvdevKeyToRdevKey(97).value) == Some(97)
  {
    assert EvdevKeyToRdevKey(97) == Some(Key.ControlRight);
  }

  lemma GrabReinjectKpDivide()
    ensures EvdevKeycodes.UkeyFromKey(EvdevKeyToRdevKey(98).value) == Some(98)
  {
    assert EvdevKeyToRdevKey(98) == Some(Key.KpDivide);
  }

  lemma GrabReinjectAltGr()
    ensures EvdevKeycodes.UkeyFromKey(EvdevKeyToRdevKey(100).value) == Some(100)
  {
    assert EvdevKeyToRdevKey(100) == Some(Key.AltGr);
  }

  lemma GrabReinjectHome()
    ensures EvdevKeycodes.UkeyFromKey(EvdevKeyToRdevKey(102).value) == Some(102)
  {
    assert EvdevKeyToRdevKey(102) == Some(Key.Home);
  }

  lemma GrabReinjectUpArrow()
    ensures EvdevKeycodes.UkeyFromKey(EvdevKeyToRdevKey(103).value) == Some(103)
  {
    assert EvdevKeyToRdevKey(103) == Some(Key.UpArrow);
  }

  lemma GrabReinjectPageUp()
    ensures EvdevKeycodes.UkeyFromKey(EvdevKeyToRdevKey(104).value) == Some(104)
  {
    assert EvdevKeyToRdevKey(104) == Some(Key.PageUp);
  }

  lemma GrabReinjectLeftArrow()
    ensures EvdevKeycodes.UkeyFromKey(EvdevKeyToRdevKey(105).value) == Some(105)
  {
    assert EvdevKeyToRdevKey(105) == Some(Key.LeftArrow);
  }

  lemma GrabReinjectRightArrow()
    ensures EvdevKeycodes.UkeyFromKey(EvdevKeyToRdevKey(106).value) == Some(106)
  {
    assert EvdevKeyToRdevKey(106) == Some(Key.RightArrow);
  }

  lemma GrabReinjectEnd()
    ensures EvdevKeycodes.UkeyFromKey(EvdevKeyToRdevKey(107).value) == Some(107)
  {
    assert EvdevKeyToRdevKey(107) == Some(Key.End);
  }

  lemma GrabReinjectDownArrow()
    ensures EvdevKeycodes.UkeyFromKey(EvdevKeyToRdevKey(108).value) == Some(108)
  {
    assert EvdevKeyToRdevKey(108) == Some(Key.DownArrow);
  }

  lemma GrabReinjectPageDown()
    ensures EvdevKeycodes.UkeyFromKey(EvdevKeyToRdevKey(109).value) == Some(109)
  {
    assert EvdevKeyToRdevKey(109) == Some(Key.PageDown);
  }

  lemma GrabReinjectInsert()
    ensures EvdevKeycodes.UkeyFromKey(EvdevKeyToRdevKey(110).value) == Some(110)
  {
    assert EvdevKeyToRdevKey(110) == Some(Key.Insert);
  }

  lemma GrabReinjectDelete()
    ensures EvdevKeycodes.UkeyFromKey(EvdevKeyToRdevKey(111).value) == Some(111)
  {
    assert EvdevKeyToRdevKey(111) == Some(Key.Delete);
  }

  lemma GrabReinjectPause()
    ensures EvdevKeycodes.UkeyFromKey(EvdevKeyToRdevKey(119).value) == Some(119)
  {
    assert EvdevKeyToRdevKey(119) == Some(Key.Pause);
  }

  lemma GrabReinjectMetaLeft()
    ensures EvdevKeycodes.UkeyFromKey(EvdevKeyToRdevKey(125).value) == Some(125)
  {
    assert EvdevKeyToRdevKey(125) == Some(Key.MetaLeft);
  }

  lemma GrabReinjectMetaRight()
    ensures EvdevKeycodes.UkeyFromKey(EvdevKeyToRdevKey(126).value).None?
  {
    assert EvdevKeyToRdevKey(126) == Some(Key.MetaRight);
  }

  lemma GrabReinjectPrintScreen()
    ensures EvdevKeycodes.UkeyFromKey(EvdevKeyToRdevKey(210).value) == Some(210)
  {
    assert EvdevKeyToRdevKey(210) == Some(Key.PrintScreen);
  }

  lemma GrabbedKeyReinjectsBelow(code: u16)
    requires code < 52
    ensures var k := EvdevKeyToRdevKey(code);
      k.Some? ==> if k.value == MetaRight then EvdevKeycodes.UkeyFromKey(k.value).None?
                  else EvdevKeycodes.UkeyFromKey(k.value) == Some(code)
  {
    if code == 1 {
      GrabReinjectEscape();
    } else if code == 2 {
      GrabReinjectNum1();
    } else if code == 3 {
      GrabReinjectNum2();
    } else if code == 4 {
      GrabReinjectNum3();
    } else if code == 5 {
      GrabReinjectNum4();
    } else if code == 6 {
      GrabReinjectNum5();
    } else if code == 7 {
      GrabReinjectNum6();
    } else if code == 8 {
      GrabReinjectNum7();
    } else if code == 9 {
      GrabReinjectNum8();
    } else if code == 10 {
      GrabReinjectNum9();
    } else if code == 11 {
      GrabReinjectNum0();
    } else if code == 12 {
      GrabReinjectMinus();
    } else if code == 13 {
      GrabReinjectEqual();
    } else if code == 14 {
      GrabReinjectBackspace();
    } else if code == 15 {
      GrabReinjectTab();
    } else if code == 16 {
      GrabReinjectKeyQ();
    } else if code == 17 {
      GrabReinjectKeyW();
    } else if code == 18 {
      GrabReinjectKeyE();
    } else if code == 19 {
      GrabReinjectKeyR();
    } else if code == 20 {
      GrabReinjectKeyT();
    } else if code == 21 {
      GrabReinjectKeyY();
    } else if code == 22 {
      GrabReinjectKeyU();
    } else if code == 23 {
      GrabReinjectKeyI();
    } else if code == 24 {
      GrabReinjectKeyO();
    } else if code == 25 {
      GrabReinjectKeyP();
    } else if code == 26 {
      GrabReinjectLeftBracket();
    } else if code == 27 {
      GrabReinjectRightBracket();
    } else if code == 28 {
      GrabReinjectReturn();
    } else if code == 29 {
      GrabReinjectControlLeft();
    } else if code == 30 {
      GrabReinjectKeyA();
    } else if code == 31 {
      GrabReinjectKeyS();
    } else if code == 32 {
      GrabReinjectKeyD();
    } else if code == 33 {
      GrabReinjectKeyF();
    } else if code == 34 {
      GrabReinjectKeyG();
    } else if code == 35 {
      GrabReinjectKeyH();
    } else if code == 36 {
      GrabReinjectKeyJ();
    } else if code == 37 {
      GrabReinjectKeyK();
    } else if code == 38 {
      GrabReinjectKeyL();
    } else if code == 39 {
      GrabReinjectSemiColon();
    } else if code == 40 {
      GrabReinjectQuote();
    } else if code == 41 {
      GrabReinjectBackQuote();
    } else if code == 42 {
      GrabReinjectShiftLeft();
    } else if code == 43 {
      GrabReinjectBackSlash();
    } else if code == 44 {
      GrabReinjectKeyZ();
    } else if code == 45 {
      GrabReinjectKeyX();
    } else if code == 46 {
      GrabReinjectKeyC();
    } else if code == 47 {
      GrabReinjectKeyV();
    } else if code == 48 {
      GrabReinjectKeyB();
    } else if code == 49 {
      GrabReinjectKeyN();
    } else if code == 50 {
      GrabReinjectKeyM();
    } else if code == 51 {
      GrabReinjectComma();
    } else {
      assert EvdevKeyToRdevKey(code).None?;
    }
  }

  lemma GrabbedKeyReinjectsFrom(code: u16)
    requires code >= 52
    ensures var k := EvdevKeyToRdevKey(code);
      k.Some? ==> if k.value == MetaRight then EvdevKeycodes.UkeyFromKey(k.value).None?
                  else EvdevKeycodes.UkeyFromKey(k.value) == Some(code)
  {
    if code == 52 {
      GrabReinjectDot();
    } else if code == 53 {
      GrabReinjectSlash();
    } else if code == 54 {
      GrabReinjectShiftRight();
    } else if code == 55 {
      GrabReinjectKpMultiply();
    } else if code == 56 {
      GrabReinjectAlt();
    } else if code == 57 {
      GrabReinjectSpace();
    } else if code == 58 {
      GrabReinjectCapsLock();
    } else if code == 59 {
      GrabReinjectF1();
    } else if code == 60 {
      GrabReinjectF2();
    } else if code == 61 {
      GrabReinjectF3();
    } else if code == 62 {
      GrabReinjectF4();
    } else if code == 63 {
      GrabReinjectF5();
    } else if code == 64 {
      GrabReinjectF6();
    } else if code == 65 {
      GrabReinjectF7();
    } else if code == 66 {
      GrabReinjectF8();
    } else if code == 67 {
      GrabReinjectF9();
    } else if code == 68 {
      GrabReinjectF10();
    } else if code == 69 {
      GrabReinjectNumLock();
    } else if code == 70 {
      GrabReinjectScrollLock();
    } else if code == 71 {
      GrabReinjectKp7();
    } else if code == 72 {
      GrabReinjectKp8();
    } else if code == 73 {
      GrabReinjectKp9();
    } else if code == 74 {
      GrabReinjectKpMinus();
    } else if code == 75 {
      GrabReinjectKp4();
    } else if code == 76 {
      GrabReinjectKp5();
    } else if code == 77 {
      GrabReinjectKp6();
    } else if code == 78 {
      GrabReinjectKpPlus();
    } else if code == 79 {
      GrabReinjectKp1();
    } else if code == 80 {
      GrabReinjectKp2();
    } else if code == 81 {
      GrabReinjectKp3();
    } else if code == 82 {
      GrabReinjectKp0();
    } else if code == 87 {
      GrabReinjectF11();
    } else if code == 88 {
      GrabReinjectF12();
    } else if code == 96 {
      GrabReinjectKpReturn();
    } else if code == 97 {
      GrabReinjectControlRight();
    } else if code == 98 {
      GrabReinjectKpDivide();
    } else if code == 100 {
      GrabReinjectAltGr();
    } else if code == 102 {
      GrabReinjectHome();
    } else if code == 103 {
      GrabReinjectUpArrow();
    } else if code == 104 {
      GrabReinjectPageUp();
    } else if code == 105 {
      GrabReinjectLeftArrow();
    } else if code == 106 {
      GrabReinjectRightArrow();
    } else if code == 107 {
      GrabReinjectEnd();
    } else if code == 108 {
      GrabReinjectDownArrow();
    } else if code == 109 {
      GrabReinjectPageDown();
    } else if code == 110 {
      GrabReinjectInsert();
    } else if code == 111 {
      GrabReinjectDelete();
    } else if code == 119 {
      GrabReinjectPause();
    } else if code == 125 {
      GrabReinjectMetaLeft();
    } else if code == 126 {
      GrabReinjectMetaRight();
    } else if code == 210 {
      GrabReinjectPrintScreen();
    } else {
      assert EvdevKeyToRdevKey(code).None?;
    }
  }
}
