# rdev core, modelled in Dafny

rdev is a Rust library that listens to and sends global keyboard and mouse events. It works on
Linux (X11, and Wayland through evdev, uinput and libinput), on Windows and on macOS. Every
backend turns native events into one portable `EventType` and turns `EventType`s back into
native requests. This project models the pure and stateful logic of that translation and proves
what it promises. The proofs cover the key tables, the keyboard state machines that name key
presses, the raw-event decoders, the injection encoders and the legacy event validator.

Modules and the source files they model:

| module | source |
|---|---|
| `Rdev` | `src/rdev.rs`: the event model, `GrabError` conversions, `Key::from_str` |
| `LegacyEvent` | `src/lib.rs`: the legacy `Event::new` validator and `format_events` |
| `X11Keycodes`, `WinKeycodes`, `MacKeycodes`, `EvdevKeycodes` | the four keycode tables (`src/linux/keycodes.rs`, `src/windows/keycodes.rs`, `src/macos/keycodes.rs`, `src/linux/wayland/keycodes.rs`) |
| `X11Keyboard`, `WinKeyboard`, `MacKeyboard` | the three `KeyboardState` implementations (`src/linux/keyboard.rs`, `src/windows/keyboard.rs`, `src/macos/keyboard.rs`) |
| `X11Common`, `WinCommon`, `MacCommon` | the raw-event decoders (`src/linux/common.rs`, `src/windows/common.rs`, `src/macos/common.rs`) |
| `GrabKeys`, `EvdevGrab` | the evdev grab: key tables, decoder, device listing (`src/linux/wayland/grab.rs`) |
| `LibinputListen` | the libinput conversion (`src/linux/wayland/listen.rs`) |
| `X11Simulate`, `WinSimulate`, `UinputSimulate`, `MacSimulate` | the injection encoders (`src/linux/simulate.rs`, `src/windows/simulate.rs`, `src/linux/wayland/simulate.rs`, `src/macos/simulate.rs`) |
| `Ints`, `Unicode`, `Wrappers` | Rust's integer casts and division, `String::from_utf8`/`from_utf16`, `Option`/`Result` |

How native calls are modelled:

- Native calls (XTest, `SendInput`, `ToUnicodeEx`, `UCKeyTranslate`, `Xutf8LookupString`, uinput
  writes, CoreGraphics) are oracles.
- Each oracle is a function value that a class holds as a `const`.
- The X server, `SendInput`, the uinput device and `ToUnicodeEx` are logged. The class keeps every
  call in a `seq` field, and the function answers each call at its log position. For
  `ToUnicodeEx`, the position stands for the layout's own dead-key buffer.
- Each oracle's answer is bounded by the buffer the source hands it: `Xutf8LookupString` fills 4
  bytes, `UCKeyTranslate` writes at most 4 units, and `ToUnicodeEx` (the `Layout` type) reports no
  more units than the request allows, 7 for a translation and 32 for a replay.
- `Xutf8LookupString` is answered by keycode, modifier state and the X11 keyboard's serial number.
- `UCKeyTranslate` is a pure function of the keycode, the modifier state and the dead-key state,
  because the caller passes that state in and keeps what comes back.
- The macOS encoder is pure, so its oracles are gathered in a `Native` value.

Stateful objects become classes whose methods state their whole new state:

- each keyboard;
- the Windows hook slot;
- the macOS `LAST_FLAGS` slot;
- the grab's tracked pointer;
- the X11 display;
- the `SendInput` queue;
- the uinput device.

## Model

| member | source | states |
|---|---|---|
| Rdev.GrabErrorFromSimulate | src/rdev.rs:69-73 | a simulate failure becomes `GrabError::SimulateError` |
| Rdev.GrabErrorFromIo | src/rdev.rs:75-80 | an I/O failure becomes `GrabError::IoError` carrying the same error |
| Rdev.Lower | src/rdev.rs:219 | on the characters modelled (see Left out), lowercasing maps each ASCII capital to its small letter and the Kelvin sign U+212A to `k`, keeps every other character, and leaves no capital and no Kelvin sign |
| Rdev.Lookup | src/rdev.rs:220-328 | a name never maps to `Unknown`; only the literal names "scrollLock" and "numLock" map to ScrollLock and NumLock |
| Rdev.LookupSpelling | src/rdev.rs:220-328 | no key is returned by two arms: a key the match returns has exactly one name, the one it was looked up by |
| Rdev.FromStr | src/rdev.rs:218-329 | parsing never yields `Unknown` |
| Rdev.LowerOfLower | src/rdev.rs:219 | lowercasing is idempotent |
| Rdev.FromStrCaseInsensitive | src/rdev.rs:218-220 | a name and its lowercase form parse to the same key |
| Rdev.ScrollLockNumLockUnparsable | src/rdev.rs:259-261 | no input string parses to ScrollLock or NumLock (finding) |
| Rdev.FromStrParsesKp0 | src/rdev.rs:316 | "Kp0" parses to Kp0 |
| Rdev.FromStrParsesDot | src/rdev.rs:308 | "Dot" parses to Dot |
| Rdev.FromStrParsesKpMultiply | src/rdev.rs:314 | "KpMultiply" parses to KpMultiply |
| Rdev.FromStrRejectsAbraca | src/rdev.rs:328 | an unknown name gives `None` |
| Rdev.FromStrLetters | src/rdev.rs:288 | letter keys are named by the bare letter in either case ("s", "S") |
| Rdev.FromStrRejectsVariantName | src/rdev.rs:288-328 | the variant name "keys" is not a name: it gives `None` |
| Rdev.FromStrKelvin | src/rdev.rs:219-316 | the Kelvin sign lowercases to `k`, so it alone parses to KeyK and followed by "p0" to Kp0 |
| Rdev.FromStrOneSpelling | src/rdev.rs:218-329 | two names parse to the same key only when they lowercase to the same text |
| Rdev.FromStrIntended | src/rdev.rs:259-261 | the corrected parser never yields `Unknown` |
| Rdev.FromStrIntendedParsesLockKeys | src/rdev.rs:259-261 | with the corrected arms every casing of "scrolllock"/"numlock" parses to ScrollLock/NumLock |
| Rdev.FromStrIntendedConservative | src/rdev.rs:218-329 | the correction changes the result of no other input |
| LegacyEvent.New | src/lib.rs:72-100 | bad coordinates give `InvalidCoordinates` (checked first); with good coordinates, an empty name or a name with a space other than " " gives `InvalidName`; otherwise `Ok` with every field kept; each error iff its condition |
| LegacyEvent.NewTests | src/lib.rs:150-205 | negative coordinate, empty name and name with a space are refused; "H" and no name are accepted |
| LegacyEvent.CoordinatesCheckedFirst | src/lib.rs:74-83 | out-of-range coordinates are reported whatever the name |
| LegacyEvent.FormatEvents | src/lib.rs:103-115 | the loop's string is the concatenation of the names of the named presses, in order, and its length is the sum of their lengths |
| LegacyEvent.FormattedLength | src/lib.rs:103-115 | the formatted string is exactly as long as the names it joins |
| LegacyEvent.FormattedAppend | src/lib.rs:105-112 | formatting distributes over concatenation of event lists |
| LegacyEvent.NoPressNoText | src/lib.rs:106-108 | a list without presses formats to "" |
| LegacyEvent.FormatSimple | src/lib.rs:143-148 | the presses "H" and "e" format to "He" |
| X11Keycodes.CodeFromKey | src/linux/keycodes.rs:7-17 | a named key's code decodes back to that key; a named key without code is one of the unmapped keys |
| X11Keycodes.KeyFromCode | src/linux/keycodes.rs:18-26 | a code outside the table decodes to `Unknown` carrying the code |
| X11Keycodes.UnknownCode | src/linux/keycodes.rs:12 | `Unknown(c)` encodes to `c` |
| X11Keycodes.UnmappedHasNoCode | src/linux/keycodes.rs:30-134 | the named keys missing from the table have no code |
| X11Keycodes.CodeRoundTrip | src/linux/keycodes.rs:139-148 | every code survives decoding then encoding |
| X11Keycodes.CodeFromKeyDistinct | src/linux/keycodes.rs:30-134 | two different named keys never share a code |
| X11Keycodes.KeyFromCodeInjective | src/linux/keycodes.rs:18-26 | two codes that decode to the same key are equal |
| X11Keycodes.UnknownRoundTrip | src/linux/keycodes.rs:12-23 | `Unknown(c)` comes back as itself iff `c` is not a table code |
| X11Keycodes.UnknownNineIsEscape | src/linux/keycodes.rs:12-23 | `Unknown(9)` comes back as Escape |
| X11Keycodes.NamedCodeIsByte | src/linux/keycodes.rs:30-134 | every table code is below 256 |
| WinKeycodes.CodeFromKey | src/windows/keycodes.rs:8-18 | a named key's code decodes back to that key; a named key without code is one of the unmapped keys |
| WinKeycodes.KeyFromCode | src/windows/keycodes.rs:19-27 | a code outside the table decodes to `Unknown` carrying the code |
| WinKeycodes.UnknownCode | src/windows/keycodes.rs:13 | `Unknown(c)` encodes to `c` when it fits in 16 bits and to nothing otherwise |
| WinKeycodes.UnmappedHasNoCode | src/windows/keycodes.rs:32-136 | the named keys missing from the table have no code |
| WinKeycodes.CodeRoundTrip | src/windows/keycodes.rs:141-151 | every 16-bit code survives decoding then encoding |
| WinKeycodes.CodeFromKeyDistinct | src/windows/keycodes.rs:32-136 | two different named keys never share a code |
| WinKeycodes.KeyFromCodeInjective | src/windows/keycodes.rs:19-27 | two codes that decode to the same key are equal |
| WinKeycodes.UnknownRoundTrip | src/windows/keycodes.rs:13-24 | a 16-bit `Unknown(c)` comes back as itself iff `c` is not a table code |
| MacKeycodes.CodeFromKey | src/macos/keycodes.rs:84-166 | a named key's code decodes back to that key; a named key without code is one of the unmapped keys |
| MacKeycodes.KeyFromCode | src/macos/keycodes.rs:168-249 | a code outside the table decodes to `Unknown` carrying the code |
| MacKeycodes.UnknownCode | src/macos/keycodes.rs:163 | `Unknown(c)` encodes to `c` |
| MacKeycodes.UnmappedHasNoCode | src/macos/keycodes.rs:84-166 | the named keys missing from the table have no code |
| MacKeycodes.CodeRoundTrip | src/macos/keycodes.rs:254-264 | every code survives decoding then encoding |
| MacKeycodes.CodeFromKeyDistinct | src/macos/keycodes.rs:84-166 | two different named keys never share a code |
| MacKeycodes.KeyFromCodeInjective | src/macos/keycodes.rs:168-249 | two codes that decode to the same key are equal |
| MacKeycodes.NamedCodeIsSmall | src/macos/keycodes.rs:168-249 | every table code is below 128 |
| EvdevKeycodes.CodeFromKey | src/linux/wayland/keycodes.rs:7-16 | a named key's code decodes back to that key; a named key without code is one of the unmapped keys |
| EvdevKeycodes.UnknownCode | src/linux/wayland/keycodes.rs:12 | `Unknown(c)` encodes to `c` |
| EvdevKeycodes.KeyFromCode | src/linux/wayland/keycodes.rs:17-25 | a code outside the table decodes to `Unknown` carrying the code |
| EvdevKeycodes.UnmappedHasNoCode | src/linux/wayland/keycodes.rs:53-165 | the named keys missing from the table have no code |
| EvdevKeycodes.CodeRoundTrip | src/linux/wayland/keycodes.rs:284-293 | every code survives decoding then encoding |
| EvdevKeycodes.CodeFromKeyDistinct | src/linux/wayland/keycodes.rs:53-165 | two different named keys never share a code |
| EvdevKeycodes.KeyFromCodeInjective | src/linux/wayland/keycodes.rs:17-25 | two codes that decode to the same key are equal |
| EvdevKeycodes.MediaKeyCodes | src/linux/wayland/keycodes.rs:157-163 | codes 113, 200 and 464 decode to VolumeMute, PlayCd and Function |
| EvdevKeycodes.UkeyFromKey | src/linux/wayland/keycodes.rs:30-40 | a named key's uinput key decodes back to that key; a named key without one is one of the keys uinput lacks |
| EvdevKeycodes.UnknownUkey | src/linux/wayland/keycodes.rs:35 | `Unknown(c)` becomes the uinput key of the low 16 bits of `c` |
| EvdevKeycodes.KeyFromUkey | src/linux/wayland/keycodes.rs:41-49 | a uinput key outside the table decodes to `Unknown` carrying it |
| EvdevKeycodes.UinputUnmappedHasNoCode | src/linux/wayland/keycodes.rs:168-279 | MetaRight, IntlBackslash, KpDelete and Function and the other missing keys have no uinput key |
| EvdevKeycodes.UkeyRoundTrip | src/linux/wayland/keycodes.rs:295-304 | every uinput key survives decoding then encoding |
| EvdevKeycodes.UkeyFromKeyDistinct | src/linux/wayland/keycodes.rs:168-279 | two different named keys never share a uinput key |
| EvdevKeycodes.KeyFromUkeyInjective | src/linux/wayland/keycodes.rs:41-49 | two uinput keys that decode to the same key are equal |
| Unicode.Utf8Head | src/linux/keyboard.rs:200-201 | a decoded head is the UTF-8 encoding of its scalar value and lies within the input |
| Unicode.Utf8Decode | src/linux/keyboard.rs:200-201 | a decoded text encodes back to exactly the input bytes |
| Unicode.Utf8RoundTrip | src/linux/keyboard.rs:200-201 | every text survives UTF-8 encoding then decoding |
| Unicode.Utf16Decode | src/windows/keyboard.rs:90 | a decoded text encodes back to exactly the input units |
| Unicode.Utf16RoundTrip | src/macos/keyboard.rs:125 | every text survives UTF-16 encoding then decoding |
| X11Keyboard.NewState | src/linux/keyboard.rs:24-33 | a new state has no modifier set |
| X11Keyboard.Value | src/linux/keyboard.rs:34-52 | the value has bit 0 iff shift, bit 1 iff caps lock, bit 2 iff control, bit 3 iff alt, bit 6 iff meta, and nothing else |
| X11Keyboard.ValueIsBitwiseOr | src/linux/keyboard.rs:34-52 | adding the masks equals OR-ing them |
| X11Keyboard.UpToZero | src/linux/keyboard.rs:200 | the result is the prefix of the buffer before its first zero byte |
| X11Keyboard.NameOfLookup | src/linux/keyboard.rs:158-201 | `NoSymbol` gives no name; a name's UTF-8 encoding is the 4-byte buffer up to its first zero, so it is at most 4 bytes long |
| X11Keyboard.UpToZeroOfPadded | src/linux/keyboard.rs:200 | zero-free bytes followed by zero padding come back whole |
| X11Keyboard.NameOfPaddedText | src/linux/keyboard.rs:196-201 | a text whose encoding has no zero byte comes back whole from a buffer that holds it and zero padding |
| X11Keyboard.AddState | src/linux/keyboard.rs:206-232 | `add` never changes alt, control or meta |
| X11Keyboard.AddLookupCode | src/linux/keyboard.rs:217-221 | a lookup happens exactly for a press of a non-modifier key that has an X11 code, with that code |
| X11Keyboard.Keyboard.constructor | src/linux/keyboard.rs:75-148 | the new keyboard has the empty state and serial 0 |
| X11Keyboard.Keyboard.NameFromCode | src/linux/keyboard.rs:149-202 | the name is the lookup's text at the current serial, which is then bumped; it is at most `BUF_LEN` (4) bytes |
| X11Keyboard.Keyboard.Add | src/linux/keyboard.rs:206-232 | the new state is `AddState`; a lookup (with the old modifier value) happens exactly when `AddLookupCode` gives a code |
| X11Keyboard.Keyboard.Reset | src/linux/keyboard.rs:233-235 | the state returns to that of `new` |
| X11Keyboard.ShiftLatch | src/linux/keyboard.rs:209-227 | a Shift press sets the latch and a release clears it, and neither changes anything else or looks up anything |
| X11Keyboard.CapsLockToggles | src/linux/keyboard.rs:213-216 | a CapsLock press toggles the lock; two presses restore the state; a release does nothing |
| X11Keyboard.OnlyShiftAndLock | src/linux/keyboard.rs:206-232 | from `new`, any event sequence leaves only the Shift and Lock bits in the modifier value |
| X11Keyboard.UnmappedKeyIsIgnored | src/linux/keyboard.rs:217-218 | a key with no X11 code gives no lookup and leaves the state unchanged |
| X11Keyboard.OtherEventsAreIgnored | src/linux/keyboard.rs:228-230 | non-Shift releases and non-key events change nothing and look up nothing |
| WinKeyboard.SetHigh | src/windows/keyboard.rs:135-141 | `|= HIGHBIT` sets the down bit and keeps the low 7 bits |
| WinKeyboard.ClearHigh | src/windows/keyboard.rs:155-160 | `&= !HIGHBIT` clears the down bit and keeps the low 7 bits |
| WinKeyboard.FlipHigh | src/windows/keyboard.rs:145 | `^= HIGHBIT` flips the down bit and keeps the low 7 bits |
| WinKeyboard.KeepHigh | src/windows/keyboard.rs:161 | `&= HIGHBIT` keeps only the down bit |
| WinKeyboard.KeyStateAfter | src/windows/keyboard.rs:131-169 | the key-state array keeps its 256 entries |
| WinKeyboard.KeyStateAfterFixed | src/windows/keyboard.rs:159-162 | the corrected array update differs from the written one only on a ShiftRight release |
| WinKeyboard.ShiftPressSetsDown | src/windows/keyboard.rs:134-143 | a Shift press sets the down bit of VK_SHIFT and of its side and leaves every other entry unchanged |
| WinKeyboard.ShiftLeftReleaseClearsDown | src/windows/keyboard.rs:154-158 | a ShiftLeft release clears VK_SHIFT and VK_LSHIFT and leaves every other entry unchanged |
| WinKeyboard.ShiftRightReleaseKeepsDown | src/windows/keyboard.rs:159-163 | as written, VK_RSHIFT stays down after a ShiftRight press then release (finding) |
| WinKeyboard.ShiftRightReleaseFixedClearsDown | src/windows/keyboard.rs:159-163 | with the fix a ShiftRight release clears VK_SHIFT and VK_RSHIFT, and a press then a release restores the array |
| WinKeyboard.CapsLockFlips | src/windows/keyboard.rs:144-147 | a CapsLock press flips only VK_CAPITAL's down bit, two presses restore the array, and a release changes nothing |
| WinKeyboard.NameOfTranslation | src/windows/keyboard.rs:83-92 | a length of 0 or less gives no text; a text's UTF-16 encoding is the first `len` units of the 32-unit buffer, so it is exactly `len` units long |
| WinKeyboard.NameOfEncodedText | src/windows/keyboard.rs:90 | a text written at the start of the buffer and reported with its own positive length comes back whole, whatever follows it |
| WinKeyboard.AfterLookup | src/windows/keyboard.rs:94-112 | a pending dead key is replayed and cleared (code 0, scan code and flag kept); otherwise the new translation is remembered |
| WinKeyboard.Replay | src/windows/keyboard.rs:94-105 | a request is sent again exactly when a dead key is pending, for that key's codes and the current key state, into the whole 32-unit buffer |
| WinKeyboard.DeadKeyReplayLogged | src/windows/keyboard.rs:94-112 | after a dead key the next lookup sends the dead key again, and the lookup after that does not |
| WinKeyboard.DeadKeyReplayedOnce | src/windows/keyboard.rs:94-112 | after a dead key, the next lookup replays it and the one after is remembered again |
| WinKeyboard.AddLookupCode | src/windows/keyboard.rs:148-151 | a lookup happens exactly for a press of a non-modifier key that has a VK code, with that code |
| WinKeyboard.LookupLeavesKeyState | src/windows/keyboard.rs:148-151 | a translated key leaves the key-state array unchanged |
| WinKeyboard.UnmappedKeyIsIgnored | src/windows/keyboard.rs:149 | a key with no VK code gives no lookup and changes no entry |
| WinKeyboard.OtherEventsAreIgnored | src/windows/keyboard.rs:164-167 | non-Shift releases and non-key events change nothing and look up nothing |
| WinKeyboard.Keyboard.constructor | src/windows/keyboard.rs:27-34 | everything starts at zero: 256 zero entries, no pending key and no request sent |
| WinKeyboard.Keyboard.ToUnicode | src/windows/keyboard.rs:81 | one `ToUnicodeEx` request is logged and answered at its log position |
| WinKeyboard.Keyboard.SetGlobalState | src/windows/keyboard.rs:46-71 | succeeds iff `GetKeyboardState` returned 1, then the array is the snapshot; on failure nothing changes |
| WinKeyboard.Keyboard.GetCodeName | src/windows/keyboard.rs:73-114 | the name is the text of the first request's answer, which asks for at most 7 units, so a name is 1 to 7 units long; the log grows by that request and then `Replay` of the pending key; the array is unchanged; the pending key follows `AfterLookup` with dead iff the length is -1 |
| WinKeyboard.Keyboard.GetName | src/windows/keyboard.rs:36-44 | a failed refresh gives no name and changes nothing; otherwise the array is the snapshot, the name is its translation, at most 7 units long, and the log grows as in `GetCodeName` |
| WinKeyboard.Keyboard.Add | src/windows/keyboard.rs:131-169 | the array becomes `KeyStateAfter`; a translation, logged with its replay as in `GetCodeName`, happens exactly when `AddLookupCode` gives a code, with scan code 0, and its name is at most 7 units long; otherwise nothing is sent |
| WinKeyboard.Keyboard.Reset | src/windows/keyboard.rs:171-174 | only entries 16 (VK_SHIFT) and 20 (VK_CAPITAL) are zeroed |
| MacKeyboard.FlagsToState | src/macos/keyboard.rs:165-188 | Command adds 1, CapsLock and Shift 2 each, Option 8 and Control 16, so the state is at most 29 |
| MacKeyboard.FlagsToStateUsesBits16To20 | src/macos/keyboard.rs:165-170 | only flag bits 16 to 20 matter |
| MacKeyboard.CapsLockAndShift | src/macos/keyboard.rs:175-183 | CapsLock with Shift counts 4; all five modifiers give 29 |
| MacKeyboard.ModifierState | src/macos/keyboard.rs:72-78 | 2 iff Shift or CapsLock is on, else 0 |
| MacKeyboard.ShiftAfter | src/macos/keyboard.rs:133-150 | a Shift press sets the latch, a release clears it, other events keep it |
| MacKeyboard.CapsLockAfter | src/macos/keyboard.rs:137-140 | the toggle flips iff the event is a CapsLock press |
| MacKeyboard.AddLookupCode | src/macos/keyboard.rs:141-144 | a lookup happens exactly for a press of a non-modifier key that has a macOS code, with that code; `Unknown` codes pass through |
| MacKeyboard.Keyboard.constructor | src/macos/keyboard.rs:64-70 | no dead key, no Shift, no CapsLock |
| MacKeyboard.Keyboard.StringFromCode | src/macos/keyboard.rs:89-126 | a code beyond 16 bits or a missing layout gives no text and keeps the dead-key state; otherwise the dead-key state is updated and the text is the UTF-16 decoding of the units written into the 4-unit buffer, so it is at most 4 units long |
| MacKeyboard.Keyboard.Add | src/macos/keyboard.rs:130-155 | the latches follow `ShiftAfter`/`CapsLockAfter`; a translation with the old modifier state happens exactly when `AddLookupCode` gives a code |
| MacKeyboard.Keyboard.Reset | src/macos/keyboard.rs:157-161 | back to the state of `new` |
| MacKeyboard.CapsLockTwice | src/macos/keyboard.rs:137-140 | two CapsLock presses restore the toggle and a release leaves it |
| MacKeyboard.UnmappedKeyIsIgnored | src/macos/keyboard.rs:142 | a key with no macOS code gives no lookup and keeps both latches |
| MacKeyboard.NonKeyEventsAreIgnored | src/macos/keyboard.rs:153 | non-key events give no lookup and keep both latches |
| X11Common.ConvertEvent | src/linux/common.rs:13-51 | keys decode through the X11 table; buttons 1-3 are Left/Middle/Right; button 4/5 presses are one notch up/down and their releases nothing; other buttons are `Unknown` with the code; motion keeps x and y; other types give nothing, each iff |
| X11Common.Convert | src/linux/common.rs:53-69 | the type is decoded from the low byte of the code; only key presses get a name, from a fresh keyboard's lookup of the full code |
| X11Common.ConvertTruncatesCode | src/linux/common.rs:55 | codes 256 apart decode alike |
| WinCommon.HiWord | src/windows/common.rs:42-49 | the result is the upper 16 bits of the word |
| WinCommon.GetDelta | src/windows/common.rs:42-49 | the delta and the button code are the upper word of `mouseData` |
| WinCommon.WheelNotches | src/windows/common.rs:85-88 | the signed word divided by 120, truncated: between -273 and 273, zero iff below one notch, and `|r|*120 <= |w| < (|r|+1)*120` |
| WinCommon.Convert | src/windows/common.rs:51-100 | key messages decode the VK code's low 16 bits; each button message gives its button, X buttons carrying the low byte of the upper word; wheels give notches on their axis; other messages give `None`, each iff |
| WinCommon.WheelWord | src/windows/common.rs:85 | the word's signed reading is the amount |
| WinCommon.WheelNotchesOfMultiple | src/windows/common.rs:84-97 | an amount of n notches decodes back to n |
| WinCommon.HookSlot.constructor | src/windows/common.rs:108-127 | no hook is installed |
| WinCommon.HookSlot.SetKeyHook | src/windows/common.rs:108-117 | a null handle gives `Key(GetLastError())` and keeps the slot; otherwise `Ok` and the slot holds the handle |
| WinCommon.HookSlot.SetMouseHook | src/windows/common.rs:119-127 | a null handle gives `Mouse(GetLastError())` and keeps the slot; otherwise `Ok` and the slot holds the handle |
| MacCommon.FlagsDecision | src/macos/common.rs:148-190 | the first of Shift, Control, Alternate, Command whose bit changed decides, set meaning press and cleared meaning release; no change of those bits gives nothing |
| MacCommon.FlagsDecisionIgnoresOtherBits | src/macos/common.rs:148-190 | repeating the flags, or changing only CapsLock or other bits, gives nothing |
| MacCommon.ShiftPressThenRelease | src/macos/common.rs:148-157 | setting Shift is a press and clearing it again a release |
| MacCommon.ConvertType | src/macos/common.rs:104-200 | buttons, moves and drags, key down/up (keycode must fit `u32`), `FlagsChanged` via `FlagsDecision`, and wheel axes 1/2 as `delta_y`/`delta_x`; the remembered flags change only on a `FlagsChanged` that yields an event |
| MacCommon.FlagsChangedRepeatIsNone | src/macos/common.rs:147-190 | the same `FlagsChanged` event right after one that produced a key event produces nothing |
| MacCommon.FlagsSlot.constructor | src/macos/common.rs:147 | the remembered flags start empty |
| MacCommon.FlagsSlot.Convert | src/macos/common.rs:98-219 | the event type and the new remembered flags follow `ConvertType`; only key presses are named, through `create_string_for_key` with the event's flags; the latches are untouched |
| GrabKeys.EvdevKeyToRdevButton | src/linux/wayland/grab.rs:52-78 | exactly BTN_LEFT, BTN_RIGHT and BTN_MIDDLE are buttons, and none is `Unknown` |
| GrabKeys.EvdevKeyToRdevKey | src/linux/wayland/grab.rs:28-189 | a decoded key is never `Unknown` |
| GrabKeys.DuplicateArmsFirstWins | src/linux/wayland/grab.rs:180-188 | `KEY_DELETE` decodes to Delete and `KEY_BACKSLASH` to BackSlash, the first of their two arms |
| GrabKeys.DeleteDiffersFromListenTable | src/linux/wayland/grab.rs:179-180 | the grab reads 111 as Delete and 110 as Insert, the listen table the other way round |
| GrabKeys.GrabbedKeyReinjects | src/linux/wayland/grab.rs:82-189 | every key the grab decodes except MetaRight has a uinput key equal to the code it came from |
| GrabKeys.NeverKpDeleteOrIntlBackslash | src/linux/wayland/grab.rs:185-188 | no code decodes to KpDelete or IntlBackslash |
| EvdevGrab.ClampToScreen | src/linux/wayland/grab.rs:221-226 | the coordinate lands in `[0, extent]`, unchanged when already inside, at 0 below and at the extent above |
| EvdevGrab.Decode | src/linux/wayland/grab.rs:191-255 | buttons before keys, value 0 is a release; REL_X/REL_Y move and clamp only their axis; the wheels give one axis each; everything else gives nothing and keeps the position |
| EvdevGrab.NonZeroValueIsPress | src/linux/wayland/grab.rs:202-211 | every non-zero value, auto-repeat included, is a press |
| EvdevGrab.DecodeAllStaysOnScreen | src/linux/wayland/grab.rs:217-239 | any event sequence keeps an on-screen position on the screen |
| EvdevGrab.AddedName | src/linux/wayland/grab.rs:324 | an event for which the keyboard looks nothing up has no name |
| EvdevGrab.GrabPass.constructor | src/linux/wayland/grab.rs:311-317 | the position starts at the display's pointer, the extent at its size |
| EvdevGrab.GrabPass.EvdevEventToRdevEvent | src/linux/wayland/grab.rs:191-255 | the result and the new position are those of `Decode`, and an on-screen position stays on screen |
| EvdevGrab.GrabPass.Step | src/linux/wayland/grab.rs:318-336 | an undecodable event passes through untouched; a decoded one updates the keyboard state, advances its serial exactly when the event is looked up, and passes through iff the callback returns something |
| EvdevGrab.ShortNamesSkippedOnlyAsMice | src/linux/wayland/grab.rs:441-449 | names shorter than two bytes are never skipped |
| EvdevGrab.SkippedExamples | src/linux/wayland/grab.rs:441-449 | examples only: "mice", "js0", "mouse0", "mouse" are skipped; "event3", "j", "mous", "mic" are not |
| EvdevGrab.WantedNames | src/linux/wayland/grab.rs:426-454 | the opened names are a sub-list of the entries and none is skipped |
| EvdevGrab.FirstError | src/linux/wayland/grab.rs:426-453 | an error comes from an unreadable entry or a wanted entry that fails to open |
| EvdevGrab.NoFailureNoError | src/linux/wayland/grab.rs:426-455 | without unreadable or unopenable entries, listing succeeds |
| EvdevGrab.GetDeviceFiles | src/linux/wayland/grab.rs:421-456 | the result is the first error if any, else the wanted entries in directory order |
| EvdevGrab.PrefixError | src/linux/wayland/grab.rs:426-453 | an error in a prefix of the entries is the error of the whole listing |
| EvdevGrab.SetupInotifyCheck | src/linux/wayland/grab.rs:515-523 | succeeds iff the device count is below `u64::MAX`, else "too many device files!" |
| LibinputListen.Notches | src/linux/wayland/listen.rs:18-63 | less than one notch of `v120` is 0 notches |
| LibinputListen.ConvertType | src/linux/wayland/listen.rs:18-63 | keys decode through the evdev table; only codes 272-274 are buttons; a relative motion is reported as its unaccelerated deltas and an absolute one as its position; wheels give negated notches; other events nothing, each iff |
| LibinputListen.RelativeMotionNotTracked | src/linux/wayland/listen.rs:45-49 | the same relative motion is reported as the same `MouseMove` each time, where the evdev grab reports two different tracked positions for the same `REL_X` delta |
| LibinputListen.Convert | src/linux/wayland/listen.rs:64-72 | an event exists iff its type converts, and its name is always `None` |
| LibinputListen.ButtonsDecoded | src/linux/wayland/listen.rs:18-63 | 272, 273 and 274 are Left, Right and Middle in both states |
| LibinputListen.ScrollByNotches | src/linux/wayland/listen.rs:18-63 | a whole number of notches comes back as that number, negated |
| LibinputListen.ButtonRoundTrip | src/linux/wayland/simulate.rs:94-121 | a button written through uinput is heard by libinput as the same button action |
| LibinputListen.KeyRoundTrip | src/linux/wayland/simulate.rs:84-93 | a key whose uinput and listen codes agree is heard as itself |
| LibinputListen.DeleteHeardAsInsert | src/linux/wayland/keycodes.rs:60-140 | an injected Delete (111) is heard as Insert and an injected Insert (110) as Delete (finding) |
| LibinputListen.ConvertTypeFixed | src/linux/wayland/keycodes.rs:60-140 | the corrected conversion differs from the written one only on codes 110 and 111 |
| LibinputListen.FixedKeyRoundTrip | src/linux/wayland/keycodes.rs:53-165 | with the corrected table every key on which the tables agreed is still heard as itself |
| LibinputListen.NotInsertDeleteCode | src/linux/wayland/keycodes.rs:266-267 | a code that the uinput and listen tables read as the same key is neither 110 nor 111 |
| LibinputListen.InsertDeleteFixed | src/linux/wayland/keycodes.rs:60-140 | with the corrected table an injected Insert or Delete is heard as itself |
| X11Simulate.Round | src/linux/simulate.rs:41 | within one half of the input, halves rounded away from zero |
| X11Simulate.MotionCoord | src/linux/simulate.rs:38-51 | inside the `c_int` range it is within a half of the input, and it saturates at the bounds |
| X11Simulate.MotionCoordOfInt | src/linux/simulate.rs:38-51 | an integral coordinate is sent unchanged |
| X11Simulate.ButtonCode | src/linux/simulate.rs:20-35 | Left/Middle/Right are 1/2/3 and `Unknown(c)` is `c`, so the code is 1 iff Left or `Unknown(1)`, and so on; always below 256 |
| X11Simulate.WrappingAbs | src/linux/simulate.rs:60 | `i64::abs` in a release build: equal to the magnitude modulo 2^64, and negative exactly for `i64::MIN` |
| X11Simulate.RangeLen | src/linux/simulate.rs:60 | `0..n` runs n times when n is positive and never otherwise |
| X11Simulate.Notches | src/linux/simulate.rs:60-65 | a delta gives as many clicks as its magnitude, except `i64::MIN`, which gives none |
| X11Simulate.Clicks | src/linux/simulate.rs:60-69 | n clicks make 2n calls |
| X11Simulate.ClicksAt | src/linux/simulate.rs:60-69 | the clicks alternate press and release |
| X11Simulate.Calls | src/linux/simulate.rs:10-72 | only a key without code issues nothing; keys and buttons issue one call with their code; the wheel issues two calls per notch of each delta (`Notches`) |
| X11Simulate.WheelCalls | src/linux/simulate.rs:55-71 | the wheel issues two calls per notch of each delta: 2(\|dx\|+\|dy\|), counting `i64::MIN` as 0 |
| X11Simulate.Replies | src/linux/simulate.rs:60-69 | one answer per call |
| X11Simulate.RepliesAt | src/linux/simulate.rs:60-69 | the i-th answer is the server's reply to the i-th call at its log position |
| X11Simulate.AccumulatedIsAndAll | src/linux/simulate.rs:59-70 | the wheel's accumulator is the AND of the answers |
| X11Simulate.AccumulatedAppend | src/linux/simulate.rs:60-69 | the vertical loop continues the horizontal loop's accumulator |
| X11Simulate.ClickStep | src/linux/simulate.rs:61-63 | one more click appends press and release and ANDs their answers in |
| X11Simulate.AndAllZero | src/linux/simulate.rs:59-73 | one zero answer makes the accumulator zero |
| X11Simulate.AndAllOnes | src/linux/simulate.rs:59-70 | all-one answers keep the accumulator at 1 |
| X11Simulate.SucceedsIffAccepted | src/linux/simulate.rs:59-77 | a refused call makes the event fail; all calls accepted makes it succeed |
| X11Simulate.AccumulatedAnswers | src/linux/simulate.rs:59-70 | the accumulator from 1 is 0 when an answer is 0 and 1 when all are 1 |
| X11Simulate.WheelZeroSucceeds | src/linux/simulate.rs:59 | `Wheel{0,0}` issues no call and succeeds |
| X11Simulate.WheelMinSendsNothing | src/linux/simulate.rs:59-70 | `Wheel{i64::MIN, 0}` issues no call and succeeds, because the wrapped magnitude leaves the loop's range empty |
| X11Simulate.WheelOrder | src/linux/simulate.rs:56-69 | the horizontal button (7 right, 6 left) is clicked once per notch of dx, then the vertical one (4 up, 5 down) once per notch of dy |
| X11Simulate.Display.constructor | src/linux/simulate.rs:82 | nothing has been sent |
| X11Simulate.Display.Fake | src/linux/simulate.rs:14 | one request is logged and answered |
| X11Simulate.Display.ClickLoop | src/linux/simulate.rs:60-64 | the loop logs n clicks and its result is the accumulated AND of their answers |
| X11Simulate.Display.Click | src/linux/simulate.rs:61-63 | a press then a release are logged and their answers ANDed |
| X11Simulate.Display.Scroll | src/linux/simulate.rs:55-71 | the log grows by the wheel's calls and the result is their accumulated AND from 1 |
| X11Simulate.SendNative | src/linux/simulate.rs:10-78 | the log grows by exactly the event's calls (none for a key without code, then failure) and the result is their success |
| X11Simulate.Simulate | src/linux/simulate.rs:80-99 | no display fails before sending; otherwise the calls are sent and `Ok` iff they succeed |
| X11Simulate.Repeat | src/linux/common.rs:29-36 | n copies of one event |
| X11Simulate.ClickObserved | src/linux/common.rs:29-44 | a click of button 4 or 5 is heard as one notch |
| X11Simulate.VerticalClicksObserved | src/linux/common.rs:29-44 | n clicks of button 4 or 5 are heard as n notches |
| X11Simulate.VerticalWheelRoundTrip | src/linux/simulate.rs:57-69 | a vertical wheel event is heard as one single notch in its direction per click (\|dy\|, none for `i64::MIN`) |
| X11Simulate.HorizontalWheelHeardAsButton | src/linux/simulate.rs:56-64 | a horizontal wheel event is heard as button 7 pressed and released, not as a wheel |
| X11Simulate.KeyRoundTrip | src/linux/simulate.rs:12-19 | a named key with a code is heard as itself |
| X11Simulate.ObservedKey | src/linux/common.rs:15-22 | a key request with a code below 256 is heard as that code's key |
| X11Simulate.ButtonRoundTrip | src/linux/simulate.rs:20-35 | every button except `Unknown(1..5)` is heard as itself |
| X11Simulate.MotionRoundTrip | src/linux/simulate.rs:36-52 | a move to integral coordinates is heard as the same move |
| WinSimulate.WheelData | src/windows/simulate.rs:102-111 | data exists iff the delta fits a `c_short`, and is the sign-extended amount when the amount fits |
| WinSimulate.PlanOf | src/windows/simulate.rs:76-133 | every event except the wheel gives one record or a failure; the wheel fails iff a non-zero delta does not fit, and gives at most two records |
| WinSimulate.Sent | src/windows/simulate.rs:98-116 | the records sent are a prefix of the plan, up to the first refused one |
| WinSimulate.AcceptedSendsAll | src/windows/simulate.rs:98-116 | when every record is accepted, all are sent |
| WinSimulate.SentAppend | src/windows/simulate.rs:98-116 | sending two parts continues after the first when it is accepted, and stops after a refused single record |
| WinSimulate.InputQueue.constructor | src/windows/simulate.rs:34-40 | nothing has been issued |
| WinSimulate.InputQueue.Send | src/windows/simulate.rs:34-45 | one record is logged; `Ok` iff `SendInput` answers 1 |
| WinSimulate.InputQueue.SimMouseEvent | src/windows/simulate.rs:19-46 | one mouse record is logged; `Ok` iff accepted |
| WinSimulate.InputQueue.SimKeyboardEvent | src/windows/simulate.rs:48-74 | one keyboard record is logged; `Ok` iff accepted |
| WinSimulate.InputQueue.Scroll | src/windows/simulate.rs:98-117 | the log grows by the sent prefix of the wheel records; `Ok` iff all are accepted and no delta overflows |
| WinSimulate.InputQueue.Simulate | src/windows/simulate.rs:76-133 | the log grows by the sent prefix of the plan; `Ok` iff every record is accepted and nothing fails |
| WinSimulate.UnmappedKeySendsNothing | src/windows/simulate.rs:79-83 | a key without VK code fails before sending |
| WinSimulate.PressAndReleaseShareKey | src/windows/simulate.rs:78-85 | press and release send the same VK code, only the release with `KEYUP` |
| WinSimulate.KeyPressPlan | src/windows/simulate.rs:78-81 | a press sends one `KEYDOWN` record with the key's code |
| WinSimulate.KeyReleasePlan | src/windows/simulate.rs:82-85 | a release sends one `KEYUP` record with the key's code |
| WinSimulate.KeyPlans | src/windows/simulate.rs:78-85 | key events follow the key's code |
| WinSimulate.UnknownButtonIsXButton | src/windows/simulate.rs:90-96 | `Unknown(c)` is an X button with `c` in `mouseData` |
| WinSimulate.WheelRecords | src/windows/simulate.rs:98-117 | in range, the horizontal record comes first iff dx != 0, then the vertical iff dy != 0; no delta sends nothing and succeeds |
| WinSimulate.WheelLateFailure | src/windows/simulate.rs:99-115 | an overflowing vertical delta fails after the horizontal record went out |
| WinSimulate.MoveOnEmptyScreenFails | src/windows/simulate.rs:119-123 | an empty virtual screen fails before sending |
| WinSimulate.AbsoluteInRange | src/windows/simulate.rs:128-129 | a pixel on the screen maps into 1..65535 |
| WinSimulate.WheelDataWord | src/windows/simulate.rs:102-111 | an amount that fits is the hook's wheel word for it |
| WinSimulate.WheelRoundTrip | src/windows/simulate.rs:98-117 | a delta whose amount fits is heard by the hook as the same delta on the same axis |
| WinSimulate.WheelOverflow | src/windows/simulate.rs:111 | `Wheel{0,300}` is accepted but heard as -246 notches (finding) |
| WinSimulate.WheelDataCheckedRoundTrip | src/windows/simulate.rs:111 | the corrected data accepts exactly -273..273 and every accepted delta is heard unchanged |
| WinSimulate.KeyRoundTrip | src/windows/simulate.rs:78-85 | a named key with a code is sent as one record with that code and heard as itself |
| WinSimulate.XButtonRoundTrip | src/windows/simulate.rs:90 | an X button is heard as the same unknown button |
| UinputSimulate.KeyBatch | src/linux/wayland/simulate.rs:64-78 | a key event followed by a report |
| UinputSimulate.ButtonKey | src/linux/wayland/simulate.rs:95-100 | only `Unknown` buttons have no key, and the grab decoder reads each key back as its button |
| UinputSimulate.Batch | src/linux/wayland/simulate.rs:80-161 | an unknown button is `Err`; a key without uinput key writes nothing and succeeds; every batch ends with a report; presses start with value 1 and releases with 0 |
| UinputSimulate.UinputDevice.constructor | src/linux/wayland/simulate.rs:82 | nothing has been written |
| UinputSimulate.UinputDevice.Write | src/linux/wayland/simulate.rs:76-106 | the batch is logged; `Ok` iff the device accepts it |
| UinputSimulate.Send | src/linux/wayland/simulate.rs:80-161 | no device gives `Ok`; otherwise exactly the event's batch is written, and `Ok` iff the device accepts it (or there was nothing to write for a key) |
| UinputSimulate.MotionOfThree | src/linux/wayland/simulate.rs:140-155 | the motion of a three-event batch is the sum of its events' motions |
| UinputSimulate.WheelScrollsVertically | src/linux/wayland/simulate.rs:144-156 | as written, a wheel scrolls (dx+dy)·120 vertically and nothing horizontally (finding) |
| UinputSimulate.WheelAxesCollide | src/linux/wayland/simulate.rs:146-150 | one notch right and one notch down are the same motion |
| UinputSimulate.WheelBatchFixedAxes | src/linux/wayland/simulate.rs:146-150 | the corrected batch reports each delta on its own axis, so different in-range wheels report different motions |
| UinputSimulate.UnmappedKeyWritesNothing | src/linux/wayland/simulate.rs:85-90 | a key without uinput key writes nothing and succeeds |
| UinputSimulate.AsInputs | src/linux/wayland/simulate.rs:140-142 | a batch is read back event for event |
| UinputSimulate.ButtonRoundTrip | src/linux/wayland/simulate.rs:94-121 | a written button is read by the grab decoder as the same button action, and the report as nothing |
| UinputSimulate.MoveIsRelative | src/linux/wayland/simulate.rs:134-141 | a written move is read back as a relative motion, so the tracked position is the clamped old position plus the truncated coordinates |
| UinputSimulate.WheelUnheardByGrab | src/linux/wayland/simulate.rs:146-155 | none of a written wheel's events is decoded by the grab |
| MacSimulate.MouseLocation | src/macos/simulate.rs:96-104 | the pointer position, or (-1, -1) when it cannot be read |
| MacSimulate.RequestOf | src/macos/simulate.rs:10-87 | nothing is asked for exactly for keys without code and Middle or `Unknown` buttons; keys carry their 16-bit code, buttons the pointer position, wheels `delta_y` then `delta_x` |
| MacSimulate.ConvertNative | src/macos/simulate.rs:89-94 | `Ok` iff the source exists, the event has a request and CoreGraphics creates it |
| MacSimulate.Simulate | src/macos/simulate.rs:107-116 | exactly one event is posted on success and none on failure |
| MacSimulate.NoSourceNoEvent | src/macos/simulate.rs:89-94 | without an event source nothing is posted |
| MacSimulate.KeyFailsOnlyWhenUnmapped | src/macos/simulate.rs:15-26 | a key fails iff it is a named key without a macOS code |
| MacSimulate.ButtonRequests | src/macos/simulate.rs:27-70 | Left and Right give their mouse events at the pointer; Middle and `Unknown` fail |
| MacSimulate.WheelRoundTrip | src/macos/simulate.rs:75-85 | a wheel in range is heard as the same wheel |
| MacSimulate.KeyRoundTrip | src/macos/simulate.rs:15-26 | a named key with a code is sent with that code and heard as itself |
| MacSimulate.HeardKey | src/macos/common.rs:130-139 | a keyboard event is heard as the key its code decodes to |
| MacSimulate.NamedKeyCodeFits | src/macos/simulate.rs:15-26 | every named key's code fits in 16 bits |
| MacSimulate.MouseRoundTrip | src/macos/simulate.rs:27-74 | moves and Left/Right buttons are heard as themselves |

## Left out

- Run loops, threads and callbacks are left out. This covers `listen` and `grab` on every platform, the epoll/inotify loop of `filter_map_events`, `CFRunLoop` and the Windows message loop. Only one step of each loop is modelled.
- `Handle::new`, `Display::new`, `get_size` and `get_mouse_pos` are left out. The uinput device and the display are parameters.
- Native calls are oracle functions. This covers XTest, `SendInput`, `GetSystemMetrics`, `GetKeyboardState`, `ToUnicodeEx`, `UCKeyTranslate`, `Xutf8LookupString`, uinput writes and CoreGraphics. Their behaviour is not modelled beyond their answers.
- `XFlush`, `XSync` and `XCloseDisplay` are left out. So are `CFRelease`, `AttachThreadInput` and the thread ids, which have no observable effect in the model.
- `WinKeyboard.Keyboard.GetCodeName` does not model `clear_keyboard_buffer`. That helper repeats `ToUnicodeEx` with an all-zero key state until the answer is not negative, and nothing bounds how often. Its requests are not in the log, and a dead key's effect on later answers is left to the oracle's answers by log position.
- Event time stamps (`SystemTime::now`, uinput `EventTime`) and the serde serialisation of events are left out.
- NaN and infinities are left out. Coordinates are `real`, and the X11 encoder's non-finite branch, which sends 0, is not modelled.
- Overflow panics of debug builds are not modelled. Release-build wrap-around is modelled where the source multiplies or casts, and for `i64::abs` in the X11 wheel loop (`X11Simulate.Notches`).
- `Rdev.Lower`: Rust's `to_lowercase` applies the full Unicode case mapping. The model maps the ASCII capitals and the Kelvin sign U+212A, and keeps every other character. The Kelvin sign is the only character outside ASCII whose lowercase form is all ASCII, so it is the only one that can change what `from_str` returns. For other characters the model's length and per-character claims do not describe Rust's result; for example, U+0130 lowercases to two characters. A name containing such a character still matches no arm in either case, so `Rdev.FromStr` agrees with the source.
- `X11Keyboard.Keyboard.constructor`: opening the display and input method can fail (`None`). The model starts from an opened keyboard.
- The Wayland `Keyboard`, which never names a key, is modelled only as the `None` name in `LibinputListen.Convert`. `xkb_keycodes` is not part of this model.
- The macOS listener's reading of a posted scroll event (`MacSimulate.Posted`) is assumed: a pixel scroll's first wheel becomes point-delta axis 1. Likewise, the Windows hook's report of an injected record's `mouseData` is assumed to carry its low word in the upper word (`WinSimulate.HookMouseData`).
- `GrabKeys.EvdevKeyToRdevKey` omits its two unreachable duplicate arms, `KEY_DELETE, KpDelete` and `KEY_BACKSLASH, IntlBackslash`. `GrabKeys.DuplicateArmsFirstWins` states what the first arms give.
- `EvdevGrab.GetDeviceFiles` works on a listing given as a sequence of entries, each carrying the answers of `file_type()` and `File::open`. Entries that are not character devices are in the listing; they carry `char_device` false and are skipped.
- `EvdevGrab.GetDeviceFiles`: a failing `file_type()` is represented as `Unreadable(err)`, like a failing entry read. Both end the listing early with that error. A failing `read_dir` itself is not modelled.

## Findings

| source | as written | input that shows it | evidently intended | confidence | as-written member | corrected member |
|---|---|---|---|---|---|---|
| src/rdev.rs:259-261 | the arms "scrollLock" and "numLock" contain capitals, but the input is lowercased first | `from_str("ScrollLock")` gives `None` | arms "scrolllock" and "numlock" | high, not executed | Rdev.ScrollLockNumLockUnparsable | Rdev.FromStrIntendedParsesLockKeys |
| src/windows/keyboard.rs:161 | a ShiftRight release does `last_state[VK_RSHIFT] &= HIGHBIT` | ShiftRight press then release leaves entry 161 at 0x80 | `&= !HIGHBIT`, as for ShiftLeft | high, not executed | WinKeyboard.ShiftRightReleaseKeepsDown | WinKeyboard.ShiftRightReleaseFixedClearsDown |
| src/windows/simulate.rs:102-111 | `c_short` delta times `WHEEL_DELTA` in `c_short`, which wraps | `Wheel{delta_x: 0, delta_y: 300}` is heard as `delta_y: -246` | refuse amounts that do not fit | medium, not executed | WinSimulate.WheelOverflow | WinSimulate.WheelDataCheckedRoundTrip |
| src/linux/wayland/simulate.rs:146-147 | `delta_x` is written on `RelativeAxis::WheelHiRes` | `Wheel{1, 0}` and `Wheel{0, 1}` report the same motion | `delta_x` on the horizontal high-resolution axis | high, not executed | UinputSimulate.WheelAxesCollide | UinputSimulate.WheelBatchFixedAxes |
| src/linux/wayland/keycodes.rs:60-140 | the listen table numbers Delete 110 and Insert 111, the kernel's `KEY_INSERT` and `KEY_DELETE` the other way round | an injected Delete is heard as Insert | Insert 110 and Delete 111, as in the uinput, grab and X11 tables | high, not executed | LibinputListen.DeleteHeardAsInsert | LibinputListen.InsertDeleteFixed |
