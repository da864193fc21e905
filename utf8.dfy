/** Text and bytes as conjure/storage.py converts between them: `str.encode()`
    and `bytes.decode()` use strict UTF-8, and `ensure_bytes`/`ensure_str`
    accept either form (and, for `ensure_bytes`, a memoryview). */
module Utf8 {

  import opened Octets
  import opened Outcomes

  /** The UTF-8 encoding of one Unicode scalar value (RFC 3629, section 3). */
  function EncodeChar(c: char): (r: Bytes)
    ensures 1 <= |r| <= 4
  {
    var n := c as int;
    if n < 0x80 then
      [n as byte]
    else if n < 0x800 then
      [(0xC0 + n / 64) as byte, (0x80 + n % 64) as byte]
    else if n < 0x1_0000 then
      [(0xE0 + n / 4096) as byte, (0x80 + (n / 64) % 64) as byte, (0x80 + n % 64) as byte]
    else
      [(0xF0 + n / 262144) as byte, (0x80 + (n / 4096) % 64) as byte,
       (0x80 + (n / 64) % 64) as byte, (0x80 + n % 64) as byte]
  }

  /** `str.encode()`: the concatenation of the characters' encodings. */
  function Encode(s: string): (r: Bytes)
    ensures |r| >= |s|
  {
    if s == [] then [] else EncodeChar(s[0]) + Encode(s[1..])
  }

  predicate IsContinuation(b: byte) {
    0x80 <= b < 0xC0
  }

  /** A code point is a Unicode scalar value: in range and not a surrogate. */
  predicate IsScalar(n: int) {
    0 <= n < 0xD800 || 0xE000 <= n < 0x11_0000
  }

  /** Reads the first character of a well-formed UTF-8 byte string: the
      character and the number of bytes it takes; `None` when the bytes start
      with no well-formed sequence (a stray continuation byte, a truncated or
      overlong sequence, a surrogate, or a value beyond U+10FFFF). */
  function DecodeFirst(b: Bytes): (r: Option<(char, nat)>)
    ensures r.Some? ==> 1 <= r.value.1 <= |b| && r.value.1 <= 4
  {
    if |b| == 0 then None
    else if b[0] < 0x80 then Some((b[0] as int as char, 1))
    else if 0xC2 <= b[0] < 0xE0 then
      if |b| >= 2 && IsContinuation(b[1]) then
        var n := (b[0] as int - 0xC0) * 64 + (b[1] as int - 0x80);
        Some((n as char, 2))
      else None
    else if 0xE0 <= b[0] < 0xF0 then
      if |b| >= 3 && IsContinuation(b[1]) && IsContinuation(b[2]) then
        var n := (b[0] as int - 0xE0) * 4096 + (b[1] as int - 0x80) * 64 + (b[2] as int - 0x80);
        if 0x800 <= n && IsScalar(n) then Some((n as char, 3)) else None
      else None
    else if 0xF0 <= b[0] < 0xF5 then
      if |b| >= 4 && IsContinuation(b[1]) && IsContinuation(b[2]) && IsContinuation(b[3]) then
        var n := (b[0] as int - 0xF0) * 262144 + (b[1] as int - 0x80) * 4096
                 + (b[2] as int - 0x80) * 64 + (b[3] as int - 0x80);
        if 0x1_0000 <= n < 0x11_0000 then Some((n as char, 4)) else None
      else None
    else None
  }

  /** `bytes.decode()` with the strict error handler. */
  function Decode(b: Bytes): (r: Result<string>)
    ensures r.Err? ==> r.error == UnicodeDecodeError
    decreases |b|
  {
    if b == [] then Ok([])
    else match DecodeFirst(b)
      case None => Err(UnicodeDecodeError)
      case Some((c, k)) =>
        match Decode(b[k..])
        case Ok(rest) => Ok([c] + rest)
        case Err(e) => Err(e)
  }

  lemma TwoByteArithmetic(n: int)
    requires 0x80 <= n < 0x800
    ensures 0xC2 <= 0xC0 + n / 64 < 0xE0 && 0x80 <= 0x80 + n % 64 < 0xC0
    ensures (n / 64) * 64 + n % 64 == n
  {}

  lemma ThreeByteArithmetic(n: int)
    requires 0x800 <= n < 0x1_0000
    ensures 0xE0 <= 0xE0 + n / 4096 < 0xF0
    ensures (n / 4096) * 4096 + ((n / 64) % 64) * 64 + n % 64 == n
  {
    assert n / 4096 == (n / 64) / 64;
  }

  lemma FourByteArithmetic(n: int)
    requires 0x1_0000 <= n < 0x11_0000
    ensures 0xF0 <= 0xF0 + n / 262144 < 0xF5
    ensures (n / 262144) * 262144 + ((n / 4096) % 64) * 4096 + ((n / 64) % 64) * 64 + n % 64 == n
  {
    assert n / 4096 == (n / 64) / 64;
    assert n / 262144 == (n / 4096) / 64;
  }

  lemma DecodeFirstOfEncodeChar(c: char, rest: Bytes)
    ensures DecodeFirst(EncodeChar(c) + rest) == Some((c, |EncodeChar(c)|))
  {
    var n := c as int;
    if n < 0x80 {
    } else if n < 0x800 {
      DecodeTwo(c, rest);
    } else if n < 0x1_0000 {
      DecodeThree(c, rest);
    } else {
      DecodeFour(c, rest);
    }
  }

  lemma DecodeTwo(c: char, rest: Bytes)
    requires 0x80 <= c as int < 0x800
    ensures DecodeFirst(EncodeChar(c) + rest) == Some((c, 2))
  {
    var n := c as int;
    var b := EncodeChar(c) + rest;
    TwoByteArithmetic(n);
    assert b[0] as int == 0xC0 + n / 64 && b[1] as int == 0x80 + n % 64;
  }

  lemma DecodeThree(c: char, rest: Bytes)
    requires 0x800 <= c as int < 0x1_0000
    ensures DecodeFirst(EncodeChar(c) + rest) == Some((c, 3))
  {
    var n := c as int;
    var b := EncodeChar(c) + rest;
    ThreeByteArithmetic(n);
    assert b[0] as int == 0xE0 + n / 4096;
    assert b[1] as int == 0x80 + (n / 64) % 64;
    assert b[2] as int == 0x80 + n % 64;
  }

  lemma DecodeFour(c: char, rest: Bytes)
    requires 0x1_0000 <= c as int
    ensures DecodeFirst(EncodeChar(c) + rest) == Some((c, 4))
  {
    var n := c as int;
    var b := EncodeChar(c) + rest;
    FourByteArithmetic(n);
    assert b[0] as int == 0xF0 + n / 262144;
    assert b[1] as int == 0x80 + (n / 4096) % 64;
    assert b[2] as int == 0x80 + (n / 64) % 64;
    assert b[3] as int == 0x80 + n % 64;
  }

  /** Decoding undoes encoding: `s.encode().decode() == s` for every string. */
  lemma {:induction false} DecodeEncode(s: string)
    ensures Decode(Encode(s)) == Ok(s)
  {
    if s != [] {
      var e := EncodeChar(s[0]);
      DecodeFirstOfEncodeChar(s[0], Encode(s[1..]));
      assert (e + Encode(s[1..]))[|e|..] == Encode(s[1..]);
      DecodeEncode(s[1..]);
      assert [s[0]] + s[1..] == s;
    }
  }

  lemma Digit64(q: int, r: int)
    requires 0 <= q && 0 <= r < 64
    ensures (q * 64 + r) / 64 == q && (q * 64 + r) % 64 == r
  {}

  lemma EncodeCharOfDecodeFirst(b: Bytes)
    requires DecodeFirst(b).Some?
    ensures EncodeChar(DecodeFirst(b).value.0) == b[..DecodeFirst(b).value.1]
  {
    if b[0] < 0x80 {
    } else if 0xC2 <= b[0] < 0xE0 {
      EncodeTwo(b);
    } else if 0xE0 <= b[0] < 0xF0 {
      EncodeThree(b);
    } else {
      EncodeFour(b);
    }
  }

  lemma EncodeTwo(b: Bytes)
    requires DecodeFirst(b).Some? && 0xC2 <= b[0] < 0xE0
    ensures EncodeChar(DecodeFirst(b).value.0) == b[..2]
  {
    var n := DecodeFirst(b).value.0 as int;
    var x, y := b[0] as int - 0xC0, b[1] as int - 0x80;
    assert n == x * 64 + y;
    Digit64(x, y);
  }

  lemma EncodeThree(b: Bytes)
    requires DecodeFirst(b).Some? && 0xE0 <= b[0] < 0xF0
    ensures EncodeChar(DecodeFirst(b).value.0) == b[..3]
  {
    var n := DecodeFirst(b).value.0 as int;
    var x, y, z := b[0] as int - 0xE0, b[1] as int - 0x80, b[2] as int - 0x80;
    assert n == (x * 64 + y) * 64 + z;
    Digit64(x * 64 + y, z);
    Digit64(x, y);
    assert n / 4096 == (n / 64) / 64;
  }

  lemma EncodeFour(b: Bytes)
    requires DecodeFirst(b).Some? && 0xF0 <= b[0]
    ensures EncodeChar(DecodeFirst(b).value.0) == b[..4]
  {
    var n := DecodeFirst(b).value.0 as int;
    var w, x, y, z := b[0] as int - 0xF0, b[1] as int - 0x80, b[2] as int - 0x80, b[3] as int - 0x80;
    assert n == ((w * 64 + x) * 64 + y) * 64 + z;
    Digit64((w * 64 + x) * 64 + y, z);
    Digit64(w * 64 + x, y);
    Digit64(w, x);
    assert n / 4096 == (n / 64) / 64;
    assert n / 262144 == (n / 4096) / 64;
  }

  /** A successful decode reads one character, then decodes the rest. */
  lemma DecodeCons(b: Bytes)
    requires b != [] && Decode(b).Ok?
    ensures DecodeFirst(b).Some?
    ensures Decode(b[DecodeFirst(b).value.1..]).Ok?
    ensures Decode(b).value == [DecodeFirst(b).value.0] + Decode(b[DecodeFirst(b).value.1..]).value
  {}

  /** Encoding undoes decoding: a byte string that decodes is the encoding of
      what it decodes to. */
  lemma {:induction false} EncodeDecode(b: Bytes, s: string)
    requires Decode(b) == Ok(s)
    ensures Encode(s) == b
    decreases |b|
  {
    if b != [] {
      DecodeCons(b);
      var c := DecodeFirst(b).value.0;
      var k := DecodeFirst(b).value.1;
      var rest := Decode(b[k..]).value;
      EncodeCharOfDecodeFirst(b);
      EncodeDecode(b[k..], rest);
      assert s == [c] + rest;
      assert s[0] == c && s[1..] == rest;
      assert Encode(s) == EncodeChar(c) + Encode(rest);
      assert b == b[..k] + b[k..];
    }
  }

  /** Encoding distributes over concatenation. */
  lemma {:induction false} EncodeAppend(a: string, b: string)
    ensures Encode(a + b) == Encode(a) + Encode(b)
  {
    if a != [] {
      assert (a + b)[0] == a[0];
      assert (a + b)[1..] == a[1..] + b;
      EncodeAppend(a[1..], b);
    } else {
      assert a + b == b;
    }
  }

  /** Distinct strings have distinct encodings. */
  lemma EncodeInjective(s: string, t: string)
    requires Encode(s) == Encode(t)
    ensures s == t
  {
    DecodeEncode(s);
    DecodeEncode(t);
  }

  /** A string of ASCII characters encodes to one byte per character, each
      byte the character's code. */
  lemma {:induction false} EncodeAscii(s: string)
    requires forall i :: 0 <= i < |s| ==> s[i] as int < 0x80
    ensures |Encode(s)| == |s|
    ensures forall i :: 0 <= i < |s| ==> Encode(s)[i] as int == s[i] as int
  {
    if s != [] {
      EncodeAscii(s[1..]);
      assert Encode(s) == [s[0] as int as byte] + Encode(s[1..]);
    }
  }

  /** The value shapes `ensure_bytes` and `ensure_str` accept. */
  datatype Data = Text(text: string) | Raw(bytes: Bytes) | View(viewed: Bytes)

  /** `ensure_bytes` (conjure/storage.py:15-19): a memoryview becomes its
      bytes, bytes pass through, text is encoded. */
  function EnsureBytes(d: Data): (r: Bytes)
    ensures d.Raw? ==> r == d.bytes
    ensures d.View? ==> r == d.viewed
    ensures d.Text? ==> Decode(r) == Ok(d.text)
  {
    DecodeEncodeOnText(d);
    match d
    case View(b) => b
    case Raw(b) => b
    case Text(s) => Encode(s)
  }

  lemma DecodeEncodeOnText(d: Data)
    ensures d.Text? ==> Decode(Encode(d.text)) == Ok(d.text)
  {
    if d.Text? { DecodeEncode(d.text); }
  }

  /** `ensure_str` (conjure/storage.py:22-23): text passes through, bytes are
      decoded (failing on malformed UTF-8); a memoryview has no `decode`. */
  function EnsureStr(d: Data): (r: Result<string>)
    ensures d.Text? ==> r == Ok(d.text)
    ensures d.Raw? ==> r == Decode(d.bytes)
    ensures d.View? ==> r.Err? && r.error.AttributeError?
  {
    match d
    case Text(s) => Ok(s)
    case Raw(b) => Decode(b)
    case View(_) => Err(AttributeError("decode"))
  }

  /** `ensure_str(ensure_bytes(s)) == s` for text. */
  lemma EnsureRoundTrip(s: string)
    ensures EnsureStr(Raw(EnsureBytes(Text(s)))) == Ok(s)
  {
    DecodeEncode(s);
  }
}
