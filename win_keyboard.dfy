/** The Windows keyboard state: a 256-byte key-state array (one byte per virtual key, the
    high bit meaning "down" and the low bit of `VK_CAPITAL` meaning "toggled") that `add`
    updates in place and hands to `ToUnicodeEx`, plus the bookkeeping that replays a dead
    key once. `ToUnicodeEx` is an oracle given to the constructor: the keyboard logs every
    call, and the oracle answers each by the call and its position in the log, which stands
    for the layout's own dead-key buffer. */
module WinKeyboard {
  import opened Ints
  import opened Wrappers
  import opened Rdev
  import opened Unicode
  import WinKeycodes

  const VK_SHIFT: nat := 16
  const VK_CAPITAL: nat := 20
  const VK_LSHIFT: nat := 160
  const VK_RSHIFT: nat := 161
  /** `HIGHBIT`, the down bit of an entry; the bit operations on it are written out on
      the byte's value below. */
  const HIGHBIT: u8 := 0x80

  /** The size of the key-state array. */
  const STATE_LEN: nat := 256

  /** `b | HIGHBIT`: the key is down, the other bits are kept. */
  function SetHigh(b: u8): (r: u8)
    ensures r >= 0x80 && r % 0x80 == b % 0x80
  {
    if b >= 0x80 then b else b + 0x80
  }

  /** `b & !HIGHBIT`: the key is up, the other bits are kept. */
  function ClearHigh(b: u8): (r: u8)
    ensures r < 0x80 && r % 0x80 == b % 0x80
  {
    if b >= 0x80 then b - 0x80 else b
  }

  /** `b ^ HIGHBIT`: the high bit flips, the other bits are kept. */
  function FlipHigh(b: u8): (r: u8)
    ensures r % 0x80 == b % 0x80
    ensures r >= 0x80 <==> b < 0x80
  {
    if b >= 0x80 then b - 0x80 else b + 0x80
  }

  /** `b & HIGHBIT`: only the high bit survives. */
  function KeepHigh(b: u8): (r: u8)
    ensures r == (if b >= 0x80 then 0x80 else 0)
  {
    if b >= 0x80 then 0x80 else 0
  }

  /** The key-state array after `add`, as written: a ShiftRight release applies
      `&= HIGHBIT` to `VK_RSHIFT`, which keeps the down bit instead of clearing it. */
  function KeyStateAfter(s: seq<u8>, e: EventType): (r: seq<u8>)
    requires |s| == STATE_LEN
    ensures |r| == STATE_LEN
  {
    match e
    case KeyPress(k) =>
      if k.ShiftLeft? then s[VK_SHIFT := SetHigh(s[VK_SHIFT])][VK_LSHIFT := SetHigh(s[VK_LSHIFT])]
      else if k.ShiftRight? then s[VK_SHIFT := SetHigh(s[VK_SHIFT])][VK_RSHIFT := SetHigh(s[VK_RSHIFT])]
      else if k.CapsLock? then s[VK_CAPITAL := FlipHigh(s[VK_CAPITAL])]
      else s
    case KeyRelease(k) =>
      if k.ShiftLeft? then s[VK_SHIFT := ClearHigh(s[VK_SHIFT])][VK_LSHIFT := ClearHigh(s[VK_LSHIFT])]
      else if k.ShiftRight? then s[VK_SHIFT := ClearHigh(s[VK_SHIFT])][VK_RSHIFT := KeepHigh(s[VK_RSHIFT])]
      else s
    case _ => s
  }

  /** The key-state array after `add` with the ShiftRight release clearing `VK_RSHIFT`
      (`&= !HIGHBIT`), as the ShiftLeft release does for `VK_LSHIFT`. */
  function KeyStateAfterFixed(s: seq<u8>, e: EventType): (r: seq<u8>)
    requires |s| == STATE_LEN
    ensures |r| == STATE_LEN
    ensures e != KeyRelease(ShiftRight) ==> r == KeyStateAfter(s, e)
  {
    if e == KeyRelease(ShiftRight) then s[VK_SHIFT := ClearHigh(s[VK_SHIFT])][VK_RSHIFT := ClearHigh(s[VK_RSHIFT])]
    else KeyStateAfter(s, e)
  }

  /** A Shift press marks Shift and the pressed side down and changes no other entry. */
  lemma ShiftPressSetsDown(s: seq<u8>, side: Key)
    requires |s| == STATE_LEN
    requires side == ShiftLeft || side == ShiftRight
    ensures var vk := if side == ShiftLeft then VK_LSHIFT else VK_RSHIFT;
      var r := KeyStateAfter(s, KeyPress(side));
      r[VK_SHIFT] >= 0x80 && r[vk] >= 0x80
      && r[VK_SHIFT] % 0x80 == s[VK_SHIFT] % 0x80 && r[vk] % 0x80 == s[vk] % 0x80
      && forall i :: 0 <= i < STATE_LEN && i != VK_SHIFT && i != vk ==> r[i] == s[i]
  {
  }

  /** A ShiftLeft release marks Shift and `VK_LSHIFT` up and changes no other entry. */
  lemma ShiftLeftReleaseClearsDown(s: seq<u8>)
    requires |s| == STATE_LEN
    ensures var r := KeyStateAfter(s, KeyRelease(ShiftLeft));
      r[VK_SHIFT] < 0x80 && r[VK_LSHIFT] < 0x80
      && r[VK_SHIFT] % 0x80 == s[VK_SHIFT] % 0x80 && r[VK_LSHIFT] % 0x80 == s[VK_LSHIFT] % 0x80
      && forall i :: 0 <= i < STATE_LEN && i != VK_SHIFT && i != VK_LSHIFT ==> r[i] == s[i]
  {
  }

  /** As written, a ShiftRight release leaves `VK_RSHIFT` down when it was down (and clears
      its other bits): after a press and a release from the all-zero array, the entry is
      still 0x80 although Shift itself is up. */
  lemma ShiftRightReleaseKeepsDown(s: seq<u8>)
    requires |s| == STATE_LEN
    ensures var r := KeyStateAfter(s, KeyRelease(ShiftRight));
      r[VK_SHIFT] < 0x80 && (r[VK_RSHIFT] >= 0x80 <==> s[VK_RSHIFT] >= 0x80)
    ensures var z := seq(STATE_LEN, _ => 0);
      var r := KeyStateAfter(KeyStateAfter(z, KeyPress(ShiftRight)), KeyRelease(ShiftRight));
      r[VK_RSHIFT] == 0x80 && r[VK_SHIFT] == 0
  {
  }

  /** With the fix, a ShiftRight release marks Shift and `VK_RSHIFT` up, and a press then a
      release restores an array in which both were up. */
  lemma ShiftRightReleaseFixedClearsDown(s: seq<u8>)
    requires |s| == STATE_LEN
    ensures var r := KeyStateAfterFixed(s, KeyRelease(ShiftRight));
      r[VK_SHIFT] < 0x80 && r[VK_RSHIFT] < 0x80
      && r[VK_RSHIFT] % 0x80 == s[VK_RSHIFT] % 0x80
      && forall i :: 0 <= i < STATE_LEN && i != VK_SHIFT && i != VK_RSHIFT ==> r[i] == s[i]
    ensures s[VK_SHIFT] < 0x80 && s[VK_RSHIFT] < 0x80 ==>
      KeyStateAfterFixed(KeyStateAfterFixed(s, KeyPress(ShiftRight)), KeyRelease(ShiftRight)) == s
  {
    if s[VK_SHIFT] < 0x80 && s[VK_RSHIFT] < 0x80 {
      var r := KeyStateAfterFixed(KeyStateAfterFixed(s, KeyPress(ShiftRight)), KeyRelease(ShiftRight));
      assert forall i :: 0 <= i < STATE_LEN ==> r[i] == s[i];
    }
  }

  /** A CapsLock press flips the down bit of `VK_CAPITAL` only, so two presses restore the
      array; a CapsLock release changes nothing. */
  lemma CapsLockFlips(s: seq<u8>)
    requires |s| == STATE_LEN
    ensures var r := KeyStateAfter(s, KeyPress(CapsLock));
      (r[VK_CAPITAL] >= 0x80 <==> s[VK_CAPITAL] < 0x80)
      && forall i :: 0 <= i < STATE_LEN && i != VK_CAPITAL ==> r[i] == s[i]
    ensures KeyStateAfter(KeyStateAfter(s, KeyPress(CapsLock)), KeyPress(CapsLock)) == s
    ensures KeyStateAfter(s, KeyRelease(CapsLock)) == s
  {
    var r := KeyStateAfter(KeyStateAfter(s, KeyPress(CapsLock)), KeyPress(CapsLock));
    assert r[VK_CAPITAL] == s[VK_CAPITAL] by {
      var b := s[VK_CAPITAL];
      assert FlipHigh(FlipHigh(b)) % 0x80 == b % 0x80;
      assert FlipHigh(FlipHigh(b)) >= 0x80 <==> b >= 0x80;
    }
    assert forall i :: 0 <= i < STATE_LEN ==> r[i] == s[i];
  }

  /** The size of `get_code_name`'s buffer, and the most units its own translation asks
      `ToUnicodeEx` for (`8 - 1`); the replay asks for the whole buffer. */
  const BUF_LEN: nat := 32
  const REQUEST_LEN: nat := 7

  /** The UTF-16 buffer `ToUnicodeEx` writes into. */
  type Buffer = b: seq<u16> | |b| == BUF_LEN witness seq(32, _ => 0)

  /** What `ToUnicodeEx` reports: its return value and the buffer it wrote. */
  datatype Translation = Translation(len: i32, buff: Buffer)

  /** The text of one translation: the first `len` units decoded for a positive length,
      nothing for 0, for the dead-key marker -1 and for other negative values. The length
      fits the buffer, as the slice `buff[..len]` demands. */
  function NameOfTranslation(t: Translation): (r: Option<string>)
    requires t.len as int <= BUF_LEN
    ensures t.len <= 0 ==> r.None?
    ensures r.Some? ==> Utf16Encode(r.value) == t.buff[..t.len]
  {
    if t.len > 0 then Utf16Decode(t.buff[..t.len]) else None
  }

  /** Any text whose encoding the layout writes, reporting its length, comes back whole,
      whatever follows it in the buffer. */
  lemma NameOfEncodedText(text: string, pad: seq<u16>)
    requires 0 < |Utf16Encode(text)| && |Utf16Encode(text)| + |pad| == BUF_LEN
    ensures NameOfTranslation(Translation(|Utf16Encode(text)| as i32, Utf16Encode(text) + pad)) == Some(text)
  {
    assert (Utf16Encode(text) + pad)[..|Utf16Encode(text)|] == Utf16Encode(text);
    Utf16RoundTrip(text);
  }

  /** A `ToUnicodeEx` request: the virtual-key code, the scan code, the key state and the
      number of units the buffer may take. */
  datatype UnicodeCall = UnicodeCall(code: u32, scan_code: u32, state: seq<u8>, capacity: nat)

  /** A layout as `ToUnicodeEx` sees it: the answer to a request, given its position in the
      log, never reports more units than the request allows. */
  type Layout = f: (nat, UnicodeCall) -> Translation
    | forall n: nat, c: UnicodeCall :: f(n, c).len as int <= c.capacity
    witness (n: nat, c: UnicodeCall) => Translation(0, seq(32, _ => 0))

  /** The dead-key bookkeeping of `get_code_name`: the last code and scan code translated and
      whether that translation was a dead key. */
  datatype Pending = Pending(code: u32, scan_code: u32, is_dead: bool)

  /** A pending dead key is replayed (and `code` reset to 0, `is_dead` left alone); otherwise
      this translation is recorded. */
  function AfterLookup(p: Pending, code: u32, scan_code: u32, is_dead: bool): (r: Pending)
    ensures p.code != 0 && p.is_dead ==> r.code == 0 && r.scan_code == p.scan_code && r.is_dead
    ensures !(p.code != 0 && p.is_dead) ==> r == Pending(code, scan_code, is_dead)
  {
    if p.code != 0 && p.is_dead then p.(code := 0) else Pending(code, scan_code, is_dead)
  }

  /** The request `get_code_name` sends after its translation: the pending dead key again,
      against the current key state and into the whole buffer, or nothing. */
  function Replay(p: Pending, state: seq<u8>): (r: seq<UnicodeCall>)
    ensures |r| <= 1
    ensures r != [] <==> p.code != 0 && p.is_dead
    ensures r != [] ==>
      r[0].code == p.code && r[0].scan_code == p.scan_code && r[0].state == state && r[0].capacity == BUF_LEN
  {
    if p.code != 0 && p.is_dead then [UnicodeCall(p.code, p.scan_code, state, BUF_LEN)] else []
  }

  /** After a dead key, the next lookup sends the dead key again right after its own request,
      and the lookup after that sends only its own. */
  lemma {:induction false} DeadKeyReplayLogged(p: Pending, c1: u32, s1: u32, c2: u32, s2: u32, d2: bool, state: seq<u8>)
    requires !(p.code != 0 && p.is_dead) && c1 != 0
    ensures var q := AfterLookup(p, c1, s1, true);
      Replay(q, state) == [UnicodeCall(c1, s1, state, BUF_LEN)]
      && Replay(AfterLookup(q, c2, s2, d2), state) == []
  {
  }

  /** A dead key is replayed exactly once: after the replay, the next translation is
      recorded again. */
  lemma {:induction false} DeadKeyReplayedOnce(p: Pending, c1: u32, s1: u32, c2: u32, s2: u32, d2: bool, c3: u32, s3: u32, d3: bool)
    requires !(p.code != 0 && p.is_dead) && c1 != 0
    ensures var q := AfterLookup(AfterLookup(p, c1, s1, true), c2, s2, d2);
      q == Pending(0, s1, true) && AfterLookup(q, c3, s3, d3) == Pending(c3, s3, d3)
  {
  }

  /** The keycode `add` translates, if any: a press of a key other than the modifiers that
      has a VK code. */
  function AddLookupCode(e: EventType): (r: Option<u16>)
    ensures r.Some? ==> e.KeyPress? && !e.key.ShiftLeft? && !e.key.ShiftRight? && !e.key.CapsLock?
    ensures r.Some? ==> WinKeycodes.CodeFromKey(e.key) == r
    ensures e.KeyPress? && !e.key.ShiftLeft? && !e.key.ShiftRight? && !e.key.CapsLock? && WinKeycodes.CodeFromKey(e.key).Some? ==> r.Some?
  {
    match e
    case KeyPress(k) =>
      if k.ShiftLeft? || k.ShiftRight? || k.CapsLock? then None else WinKeycodes.CodeFromKey(k)
    case _ => None
  }

  /** A key that `add` translates leaves the key-state array as it is. */
  lemma LookupLeavesKeyState(s: seq<u8>, e: EventType)
    requires |s| == STATE_LEN
    requires AddLookupCode(e).Some?
    ensures KeyStateAfter(s, e) == s
  {
  }

  /** A key with no VK code other than the modifiers is not translated and changes nothing. */
  lemma UnmappedKeyIsIgnored(s: seq<u8>, k: Key)
    requires |s| == STATE_LEN
    requires WinKeycodes.Unmapped(k)
    ensures AddLookupCode(KeyPress(k)).None? && KeyStateAfter(s, KeyPress(k)) == s
  {
    WinKeycodes.UnmappedHasNoCode(k);
  }

  /** Releases of other keys and events that are not key events change nothing. */
  lemma OtherEventsAreIgnored(s: seq<u8>, e: EventType)
    requires |s| == STATE_LEN
    requires !e.KeyPress? && !(e.KeyRelease? && (e.key.ShiftLeft? || e.key.ShiftRight?))
    ensures KeyStateAfter(s, e) == s && AddLookupCode(e).None?
  {
  }

  class Keyboard {
    var last_code: u32
    var last_scan_code: u32
    const last_state: array<u8>
    var last_is_dead: bool
    /** The `ToUnicodeEx` requests sent so far. */
    var calls: seq<UnicodeCall>
    /** The layout's answer to a request, given its position in the log. */
    const to_unicode: Layout

    /** `Keyboard::new`: everything zero. */
    constructor(to_unicode: Layout)
      ensures last_code == 0 && last_scan_code == 0 && !last_is_dead && calls == []
      ensures last_state.Length == STATE_LEN && fresh(last_state)
      ensures forall i :: 0 <= i < STATE_LEN ==> last_state[i] == 0
      ensures this.to_unicode == to_unicode
    {
      last_code := 0;
      last_scan_code := 0;
      last_state := new u8[STATE_LEN](_ => 0);
      last_is_dead := false;
      calls := [];
      this.to_unicode := to_unicode;
    }

    /** One `ToUnicodeEx` request. */
    method ToUnicode(c: UnicodeCall) returns (t: Translation)
      modifies this
      ensures calls == old(calls) + [c]
      ensures t == to_unicode(|old(calls)|, c)
      ensures last_code == old(last_code) && last_scan_code == old(last_scan_code) && last_is_dead == old(last_is_dead)
    {
      t := to_unicode(|calls|, c);
      calls := calls + [c];
    }

    /** `set_global_state`: a snapshot of the system key state replaces the array when
        `GetKeyboardState` succeeded (returned 1); otherwise nothing changes. */
    method SetGlobalState(status: int, snapshot: seq<u8>) returns (ok: bool)
      requires last_state.Length == STATE_LEN && |snapshot| == STATE_LEN
      modifies last_state
      ensures ok <==> status == 1
      ensures calls == old(calls)
      ensures ok ==> last_state[..] == snapshot
      ensures !ok ==> last_state[..] == old(last_state[..])
    {
      if status != 1 {
        return false;
      }
      forall i | 0 <= i < STATE_LEN {
        last_state[i] := snapshot[i];
      }
      ok := true;
    }

    /** `get_code_name`: one translation of the code against the current key state, then the
        dead-key bookkeeping, which sends a pending dead key again and ignores the answer. */
    method GetCodeName(code: u32, scan_code: u32) returns (name: Option<string>)
      modifies this
      ensures last_state[..] == old(last_state[..])
      ensures var c := UnicodeCall(code, scan_code, last_state[..], REQUEST_LEN);
        var t := to_unicode(|old(calls)|, c);
        var p := old(Pending(last_code, last_scan_code, last_is_dead));
        name == NameOfTranslation(t)
        && (name.Some? ==> 0 < |Utf16Encode(name.value)| <= REQUEST_LEN)
        && calls == old(calls) + [c] + Replay(p, last_state[..])
        && Pending(last_code, last_scan_code, last_is_dead) == AfterLookup(p, code, scan_code, t.len == -1)
    {
      var t := ToUnicode(UnicodeCall(code, scan_code, last_state[..], REQUEST_LEN));
      var is_dead := t.len == -1;
      var result := NameOfTranslation(t);
      if last_code != 0 && last_is_dead {
        var _ := ToUnicode(UnicodeCall(last_code, last_scan_code, last_state[..], BUF_LEN));
        last_code := 0;
      } else {
        last_code := code;
        last_scan_code := scan_code;
        last_is_dead := is_dead;
      }
      name := result;
    }

    /** `get_name`: refresh the key state from the system, then translate; a failed refresh
        gives no text and changes nothing. */
    method GetName(code: u32, scan_code: u32, status: int, snapshot: seq<u8>) returns (name: Option<string>)
      requires last_state.Length == STATE_LEN && |snapshot| == STATE_LEN
      modifies this, last_state
      ensures status != 1 ==>
        name.None? && last_state[..] == old(last_state[..]) && calls == old(calls)
        && last_code == old(last_code) && last_scan_code == old(last_scan_code) && last_is_dead == old(last_is_dead)
      ensures status == 1 ==> last_state[..] == snapshot
      ensures status == 1 ==>
        var c := UnicodeCall(code, scan_code, snapshot, REQUEST_LEN);
        var t := to_unicode(|old(calls)|, c);
        var p := old(Pending(last_code, last_scan_code, last_is_dead));
        name == NameOfTranslation(t)
        && (name.Some? ==> 0 < |Utf16Encode(name.value)| <= REQUEST_LEN)
        && calls == old(calls) + [c] + Replay(p, snapshot)
        && Pending(last_code, last_scan_code, last_is_dead) == AfterLookup(p, code, scan_code, t.len == -1)
    {
      var ok := SetGlobalState(status, snapshot);
      if !ok {
        return None;
      }
      name := GetCodeName(code, scan_code);
    }

    /** `KeyboardState::add`. */
    method Add(e: EventType) returns (name: Option<string>)
      requires last_state.Length == STATE_LEN
      modifies this, last_state
      ensures last_state[..] == KeyStateAfter(old(last_state[..]), e)
      ensures AddLookupCode(e).None? ==>
        name.None? && calls == old(calls)
        && last_code == old(last_code) && last_scan_code == old(last_scan_code) && last_is_dead == old(last_is_dead)
      ensures AddLookupCode(e).Some? ==>
        var c := UnicodeCall(AddLookupCode(e).value, 0, old(last_state[..]), REQUEST_LEN);
        var t := to_unicode(|old(calls)|, c);
        var p := old(Pending(last_code, last_scan_code, last_is_dead));
        name == NameOfTranslation(t)
        && (name.Some? ==> 0 < |Utf16Encode(name.value)| <= REQUEST_LEN)
        && calls == old(calls) + [c] + Replay(p, old(last_state[..]))
        && Pending(last_code, last_scan_code, last_is_dead) == AfterLookup(p, AddLookupCode(e).value, 0, t.len == -1)
    {
      match e
      case KeyPress(k) =>
        if k.ShiftLeft? {
          last_state[VK_SHIFT] := SetHigh(last_state[VK_SHIFT]);
          last_state[VK_LSHIFT] := SetHigh(last_state[VK_LSHIFT]);
          name := None;
        } else if k.ShiftRight? {
          last_state[VK_SHIFT] := SetHigh(last_state[VK_SHIFT]);
          last_state[VK_RSHIFT] := SetHigh(last_state[VK_RSHIFT]);
          name := None;
        } else if k.CapsLock? {
          last_state[VK_CAPITAL] := FlipHigh(last_state[VK_CAPITAL]);
          name := None;
        } else {
          var code := WinKeycodes.CodeFromKey(k);
          if code.None? {
            name := None;
          } else {
            name := GetCodeName(code.value, 0);
          }
        }
      case KeyRelease(k) =>
        if k.ShiftLeft? {
          last_state[VK_SHIFT] := ClearHigh(last_state[VK_SHIFT]);
          last_state[VK_LSHIFT] := ClearHigh(last_state[VK_LSHIFT]);
        } else if k.ShiftRight? {
          last_state[VK_SHIFT] := ClearHigh(last_state[VK_SHIFT]);
          last_state[VK_RSHIFT] := KeepHigh(last_state[VK_RSHIFT]);
        }
        name := None;
      case _ =>
        name := None;
    }

    /** `KeyboardState::reset`: only the Shift and CapsLock entries are zeroed; the side
        entries 160 and 161 and the dead-key bookkeeping are left as they are. */
    method Reset()
      requires last_state.Length == STATE_LEN
      modifies last_state
      ensures last_state[..] == old(last_state[..])[VK_SHIFT := 0][VK_CAPITAL := 0]
    {
      last_state[VK_SHIFT] := 0;
      last_state[VK_CAPITAL] := 0;
    }
  }
}
