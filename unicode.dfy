/** UTF-8 and UTF-16 as Rust's `String::from_utf8` and `String::from_utf16` read them:
    strict decoders that refuse malformed input. `string` is a sequence of Unicode scalar
    values, so each decoder's result is exactly the text whose encoding was given. */
module Unicode {
  import opened Ints
  import opened Wrappers

  predicate Cont(b: int) { 0x80 <= b < 0xC0 }

  /** The UTF-8 encoding of one scalar value. */
  function Utf8Char(c: char): (r: seq<u8>)
    ensures 1 <= |r| <= 4
  {
    var n := c as int;
    if n < 0x80 then [n]
    else if n < 0x800 then Utf8Two(n)
    else if n < 0x1_0000 then Utf8Three(n)
    else Utf8Four(n)
  }

  function Utf8Two(n: int): (r: seq<u8>)
    requires 0x80 <= n < 0x800
    ensures |r| == 2 && 0xC2 <= r[0] < 0xE0 && Cont(r[1])
    ensures (r[0] as int - 0xC0) * 64 + (r[1] as int - 0x80) == n
  {
    [0xC0 + n / 64, 0x80 + n % 64]
  }

  function Utf8Three(n: int): (r: seq<u8>)
    requires 0x800 <= n < 0x1_0000
    ensures |r| == 3 && 0xE0 <= r[0] < 0xF0 && Cont(r[1]) && Cont(r[2])
    ensures r[0] == 0xE0 ==> r[1] >= 0xA0
    ensures r[0] == 0xED && r[1] >= 0xA0 ==> n >= 0xD800
    ensures (r[0] as int - 0xE0) * 4096 + (r[1] as int - 0x80) * 64 + (r[2] as int - 0x80) == n
  {
    var q := n / 64;
    [0xE0 + q / 64, 0x80 + q % 64, 0x80 + n % 64]
  }

  function Utf8Four(n: int): (r: seq<u8>)
    requires 0x1_0000 <= n < 0x11_0000
    ensures |r| == 4 && 0xF0 <= r[0] <= 0xF4 && Cont(r[1]) && Cont(r[2]) && Cont(r[3])
    ensures r[0] == 0xF0 ==> r[1] >= 0x90
    ensures r[0] == 0xF4 ==> r[1] < 0x90
    ensures (r[0] as int - 0xF0) * 262144 + (r[1] as int - 0x80) * 4096 + (r[2] as int - 0x80) * 64 + (r[3] as int - 0x80) == n
  {
    var q := n / 64;
    var p := q / 64;
    [0xF0 + p / 64, 0x80 + p % 64, 0x80 + q % 64, 0x80 + n % 64]
  }

  function Utf8Encode(s: string): seq<u8>
  {
    if s == [] then [] else Utf8Char(s[0]) + Utf8Encode(s[1..])
  }

  /** The byte at `i`, or 0 past the end. */
  function At(b: seq<u8>, i: nat): int
  {
    if i < |b| then b[i] else 0
  }

  /** The scalar value at the head of `b` and the number of bytes it occupies, or None when
      the head is not a well-formed sequence (stray continuation, overlong form, surrogate,
      beyond U+10FFFF, truncated). */
  function Utf8Head(b: seq<u8>): (r: Option<(char, nat)>)
    requires |b| > 0
    ensures r.Some? ==> 1 <= r.value.1 <= |b| && Utf8Char(r.value.0) == b[..r.value.1]
  {
    var b0, b1, b2, b3 := b[0] as int, At(b, 1), At(b, 2), At(b, 3);
    if b0 < 0x80 then Some((b0 as char, 1))
    else if b0 < 0xC2 || |b| < 2 || !Cont(b1) then None
    else if b0 < 0xE0 then
      var n := (b0 - 0xC0) * 64 + (b1 - 0x80);
      Two(b0, b1, n);
      Some((n as char, 2))
    else if |b| < 3 || !Cont(b2) then None
    else if b0 < 0xF0 then
      if (b0 == 0xE0 && b1 < 0xA0) || (b0 == 0xED && b1 >= 0xA0) then None
      else
        var n := (b0 - 0xE0) * 4096 + (b1 - 0x80) * 64 + (b2 - 0x80);
        Three(b0, b1, b2, n);
        Some((n as char, 3))
    else if b0 > 0xF4 || |b| < 4 || !Cont(b3) then None
    else if (b0 == 0xF0 && b1 < 0x90) || (b0 == 0xF4 && b1 >= 0x90) then None
    else
      var n := (b0 - 0xF0) * 262144 + (b1 - 0x80) * 4096 + (b2 - 0x80) * 64 + (b3 - 0x80);
      Four(b0, b1, b2, b3, n);
      Some((n as char, 4))
  }

  lemma Two(b0: int, b1: int, n: int)
    requires 0xC2 <= b0 < 0xE0 && Cont(b1) && n == (b0 - 0xC0) * 64 + (b1 - 0x80)
    ensures 0x80 <= n < 0x800 && Utf8Two(n) == [b0, b1]
  {
  }

  lemma Three(b0: int, b1: int, b2: int, n: int)
    requires 0xE0 <= b0 < 0xF0 && Cont(b1) && Cont(b2)
    requires !(b0 == 0xE0 && b1 < 0xA0) && !(b0 == 0xED && b1 >= 0xA0)
    requires n == (b0 - 0xE0) * 4096 + (b1 - 0x80) * 64 + (b2 - 0x80)
    ensures 0x800 <= n < 0x1_0000 && !(0xD800 <= n < 0xE000) && Utf8Three(n) == [b0, b1, b2]
  {
    var q := (b0 - 0xE0) * 64 + (b1 - 0x80);
    assert n == q * 64 + (b2 - 0x80);
    DivMod64(q, b2 - 0x80);
    DivMod64(b0 - 0xE0, b1 - 0x80);
  }

  lemma Four(b0: int, b1: int, b2: int, b3: int, n: int)
    requires 0xF0 <= b0 <= 0xF4 && Cont(b1) && Cont(b2) && Cont(b3)
    requires !(b0 == 0xF0 && b1 < 0x90) && !(b0 == 0xF4 && b1 >= 0x90)
    requires n == (b0 - 0xF0) * 262144 + (b1 - 0x80) * 4096 + (b2 - 0x80) * 64 + (b3 - 0x80)
    ensures 0x1_0000 <= n < 0x11_0000 && Utf8Four(n) == [b0, b1, b2, b3]
  {
    var p := (b0 - 0xF0) * 64 + (b1 - 0x80);
    var q := p * 64 + (b2 - 0x80);
    assert n == q * 64 + (b3 - 0x80);
    DivMod64(q, b3 - 0x80);
    DivMod64(p, b2 - 0x80);
    DivMod64(b0 - 0xF0, b1 - 0x80);
  }

  lemma DivMod64(hi: int, lo: int)
    requires 0 <= lo < 64
    ensures (hi * 64 + lo) / 64 == hi && (hi * 64 + lo) % 64 == lo
  {
  }

  /** `String::from_utf8(b).ok()`: some text exactly when `b` is well-formed UTF-8, and
      then the text whose encoding `b` is. */
  function Utf8Decode(b: seq<u8>): (r: Option<string>)
    ensures r.Some? ==> Utf8Encode(r.value) == b
    decreases |b|
  {
    if b == [] then Some([])
    else
      var h := Utf8Head(b);
      if h.None? then None
      else
        var c, n := h.value.0, h.value.1;
        var t := Utf8Decode(b[n..]);
        if t.None? then None
        else
          assert b == b[..n] + b[n..];
          assert ([c] + t.value)[1..] == t.value;
          Some([c] + t.value)
  }

  lemma Utf8HeadOfEncoding(c: char, tail: seq<u8>)
    ensures Utf8Head(Utf8Char(c) + tail) == Some((c, |Utf8Char(c)|))
  {
    var n := c as int;
    var e := Utf8Char(c);
    var b := e + tail;
    assert b[..|e|] == e;
    if n < 0x80 {
    } else if n < 0x800 {
      assert b[0] == e[0] && b[1] == e[1];
    } else if n < 0x1_0000 {
      assert b[0] == e[0] && b[1] == e[1] && b[2] == e[2];
    } else {
      assert b[0] == e[0] && b[1] == e[1] && b[2] == e[2] && b[3] == e[3];
    }
  }

  /** Every text survives encoding and decoding. */
  lemma {:induction false} Utf8RoundTrip(s: string)
    ensures Utf8Decode(Utf8Encode(s)) == Some(s)
  {
    if s != [] {
      var e := Utf8Encode(s);
      assert e == Utf8Char(s[0]) + Utf8Encode(s[1..]);
      Utf8HeadOfEncoding(s[0], Utf8Encode(s[1..]));
      assert e[|Utf8Char(s[0])|..] == Utf8Encode(s[1..]);
      Utf8RoundTrip(s[1..]);
      assert [s[0]] + s[1..] == s;
    }
  }

  predicate HighSurrogate(u: u16) { 0xD800 <= u < 0xDC00 }
  predicate LowSurrogate(u: u16) { 0xDC00 <= u < 0xE000 }

  /** The UTF-16 encoding of one scalar value. */
  function Utf16Char(c: char): (r: seq<u16>)
    ensures 1 <= |r| <= 2
  {
    var n := c as int;
    if n < 0x1_0000 then [n]
    else [0xD800 + (n - 0x1_0000) / 1024, 0xDC00 + (n - 0x1_0000) % 1024]
  }

  function Utf16Encode(s: string): seq<u16>
  {
    if s == [] then [] else Utf16Char(s[0]) + Utf16Encode(s[1..])
  }

  /** `String::from_utf16(u).ok()`: some text exactly when `u` holds no unpaired surrogate,
      and then the text whose encoding `u` is. */
  function Utf16Decode(u: seq<u16>): (r: Option<string>)
    ensures r.Some? ==> Utf16Encode(r.value) == u
    decreases |u|
  {
    if u == [] then Some([])
    else if !HighSurrogate(u[0]) && !LowSurrogate(u[0]) then
      match Utf16Decode(u[1..])
      case None => None
      case Some(rest) =>
        assert u == [u[0]] + u[1..];
        Some([u[0] as char] + rest)
    else if HighSurrogate(u[0]) && |u| >= 2 && LowSurrogate(u[1]) then
      match Utf16Decode(u[2..])
      case None => None
      case Some(rest) =>
        assert u == u[..2] + u[2..];
        Some([(0x1_0000 + (u[0] as int - 0xD800) * 1024 + (u[1] as int - 0xDC00)) as char] + rest)
    else None
  }

  /** Every text survives UTF-16 encoding and decoding. */
  lemma {:induction false} Utf16RoundTrip(s: string)
    ensures Utf16Decode(Utf16Encode(s)) == Some(s)
  {
    if s != [] {
      var h := Utf16Char(s[0]);
      var e := Utf16Encode(s);
      assert e == h + Utf16Encode(s[1..]);
      assert e[|h|..] == Utf16Encode(s[1..]);
      Utf16RoundTrip(s[1..]);
      assert [s[0]] + s[1..] == s;
    }
  }
}
