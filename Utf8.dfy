/**
 * UTF-8 as section 3 of RFC 3629 defines it: the encoding `str.encode("utf-8")`
 * performs and the strict decoding `bytes.decode("utf-8")` performs. Dafny's
 * `char` is a Unicode scalar value (a code point outside the surrogate range),
 * so every string encodes; decoding refuses ill-formed input: stray or
 * missing continuation bytes, overlong forms, surrogates and code points
 * above U+10FFFF.
 */
module Utf8 {
  import opened Wrappers
  import opened PyObjects

  /** A continuation byte, 10xxxxxx. */
  predicate IsContinuation(b: Byte)
  {
    0x80 <= b < 0xC0
  }

  /** True of the integers that are Unicode scalar values, that is, valid `char`s. */
  predicate IsScalar(n: int)
  {
    (0 <= n < 0xD800) || (0xE000 <= n <= 0x10FFFF)
  }

  /** The one to four bytes that encode the code point `c`. */
  function EncodeChar(c: char): (r: seq<Byte>)
    ensures 1 <= |r| <= 4
    ensures (|r| == 1) == (c as int < 0x80)
    ensures r[0] < 0x80 || 0xC2 <= r[0] <= 0xF4
    ensures forall i :: 1 <= i < |r| ==> IsContinuation(r[i])
  {
    var n := c as int;
    if n < 0x80 then
      [n]
    else if n < 0x800 then
      [0xC0 + n / 64, 0x80 + n % 64]
    else if n < 0x10000 then
      [0xE0 + n / 4096, 0x80 + (n / 64) % 64, 0x80 + n % 64]
    else
      [0xF0 + n / 0x40000, 0x80 + (n / 4096) % 64, 0x80 + (n / 64) % 64, 0x80 + n % 64]
  }

  /** `s.encode("utf-8")`. */
  function Encode(s: string): (r: seq<Byte>)
    ensures |s| <= |r| <= 4 * |s|
  {
    if s == [] then [] else EncodeChar(s[0]) + Encode(s[1..])
  }

  /**
   * Decodes the first character of `b`: the character and the number of
   * bytes it takes, or None when `b` does not start with a well-formed
   * sequence.
   */
  function DecodeChar(b: seq<Byte>): (r: Option<(char, nat)>)
    requires b != []
    ensures r.Some? ==> 1 <= r.value.1 <= |b| && r.value.1 <= 4
  {
    var b0 := b[0] as int;
    if b0 < 0x80 then
      Some((b0 as char, 1))
    else if b0 < 0xC0 then
      None
    else if b0 < 0xE0 then
      if |b| < 2 || !IsContinuation(b[1]) then None
      else
        var n := Value2(b0, b[1]);
        if n < 0x80 then None else Some((n as char, 2))
    else if b0 < 0xF0 then
      if |b| < 3 || !IsContinuation(b[1]) || !IsContinuation(b[2]) then None
      else
        var n := Value3(b0, b[1], b[2]);
        if n < 0x800 || !IsScalar(n) then None else Some((n as char, 3))
    else if b0 < 0xF8 then
      if |b| < 4 || !IsContinuation(b[1]) || !IsContinuation(b[2]) || !IsContinuation(b[3]) then None
      else
        var n := Value4(b0, b[1], b[2], b[3]);
        if n < 0x10000 || !IsScalar(n) then None else Some((n as char, 4))
    else
      None
  }

  /** The code point a two-byte sequence 110xxxxx 10yyyyyy spells. */
  function Value2(b0: int, b1: Byte): (v: int)
    ensures 0xC0 <= b0 < 0xE0 && IsContinuation(b1) ==> 0 <= v < 0x800
  {
    (b0 - 0xC0) * 64 + (b1 as int - 0x80)
  }

  /** The code point a three-byte sequence 1110xxxx 10yyyyyy 10zzzzzz spells. */
  function Value3(b0: int, b1: Byte, b2: Byte): (v: int)
    ensures 0xE0 <= b0 < 0xF0 && IsContinuation(b1) && IsContinuation(b2) ==> 0 <= v < 0x10000
  {
    (b0 - 0xE0) * 4096 + (b1 as int - 0x80) * 64 + (b2 as int - 0x80)
  }

  /** The code point a four-byte sequence 11110www 10xxxxxx 10yyyyyy 10zzzzzz spells. */
  function Value4(b0: int, b1: Byte, b2: Byte, b3: Byte): (v: int)
    ensures 0xF0 <= b0 < 0xF8 && IsContinuation(b1) && IsContinuation(b2) && IsContinuation(b3) ==> 0 <= v < 0x200000
  {
    (b0 - 0xF0) * 0x40000 + (b1 as int - 0x80) * 4096 + (b2 as int - 0x80) * 64 + (b3 as int - 0x80)
  }

  /** `b.decode("utf-8")`: the decoded string, or None where Python raises UnicodeDecodeError. */
  function Decode(b: seq<Byte>): (r: Option<string>)
    ensures r.Some? ==> |r.value| <= |b|
    decreases |b|
  {
    if b == [] then Some([])
    else
      match DecodeChar(b)
      case None => None
      case Some((c, k)) =>
        match Decode(b[k..])
        case None => None
        case Some(rest) => Some([c] + rest)
  }

  /** Decoding the encoding of one character gives it back, with its length. */
  lemma DecodeEncodeChar(c: char, rest: seq<Byte>)
    ensures DecodeChar(EncodeChar(c) + rest) == Some((c, |EncodeChar(c)|))
  {
    var n := c as int;
    var e := EncodeChar(c);
    var b := e + rest;
    assert b[..|e|] == e;
    if n < 0x80 {
    } else if n < 0x800 {
      assert Value2(b[0], b[1]) == n by {
        assert b[0] == 0xC0 + n / 64 && b[1] == 0x80 + n % 64;
      }
    } else if n < 0x10000 {
      assert Value3(b[0], b[1], b[2]) == n by {
        assert b[0] == 0xE0 + n / 4096 && b[1] == 0x80 + (n / 64) % 64 && b[2] == 0x80 + n % 64;
        DivMod3(n);
      }
    } else {
      assert Value4(b[0], b[1], b[2], b[3]) == n by {
        assert b[0] == 0xF0 + n / 0x40000 && b[1] == 0x80 + (n / 4096) % 64;
        assert b[2] == 0x80 + (n / 64) % 64 && b[3] == 0x80 + n % 64;
        DivMod4(n);
      }
    }
  }

  lemma DivMod3(n: nat)
    ensures (n / 4096) * 4096 + ((n / 64) % 64) * 64 + n % 64 == n
  {
    assert n == (n / 64) * 64 + n % 64;
    assert n / 64 == (n / 4096) * 64 + (n / 64) % 64;
  }

  lemma DivMod4(n: nat)
    ensures (n / 0x40000) * 0x40000 + ((n / 4096) % 64) * 4096 + ((n / 64) % 64) * 64 + n % 64 == n
  {
    DivMod3(n);
    assert n / 4096 == (n / 0x40000) * 64 + (n / 4096) % 64;
  }

  /** Round trip: every string survives encoding then decoding. */
  lemma {:induction false} DecodeEncode(s: string)
    ensures Decode(Encode(s)) == Some(s)
  {
    if s != [] {
      var e := EncodeChar(s[0]);
      DecodeEncodeChar(s[0], Encode(s[1..]));
      assert (e + Encode(s[1..]))[|e|..] == Encode(s[1..]);
      DecodeEncode(s[1..]);
      assert [s[0]] + s[1..] == s;
    }
  }

  /** A decoded character re-encodes to exactly the bytes it was read from. */
  lemma EncodeDecodeChar(b: seq<Byte>)
    requires b != [] && DecodeChar(b).Some?
    ensures EncodeChar(DecodeChar(b).value.0) == b[..DecodeChar(b).value.1]
  {
    var n := DecodeChar(b).value.0 as int;
    if b[0] < 0x80 {
    } else if b[0] < 0xE0 {
      assert n == Value2(b[0], b[1]);
      assert n / 64 == b[0] - 0xC0 && n % 64 == b[1] - 0x80;
    } else if b[0] < 0xF0 {
      assert n == Value3(b[0], b[1], b[2]);
      Split3(b[0], b[1], b[2]);
    } else {
      assert n == Value4(b[0], b[1], b[2], b[3]);
      Split4(b[0], b[1], b[2], b[3]);
    }
  }

  lemma Split3(b0: int, b1: Byte, b2: Byte)
    requires 0xE0 <= b0 < 0xF0 && IsContinuation(b1) && IsContinuation(b2)
    ensures var n := Value3(b0, b1, b2);
            n / 4096 == b0 - 0xE0 && (n / 64) % 64 == b1 - 0x80 && n % 64 == b2 - 0x80
  {
    var n := Value3(b0, b1, b2);
    var hi := (b0 - 0xE0) * 64 + (b1 as int - 0x80);
    assert n == hi * 64 + (b2 as int - 0x80);
    assert n / 64 == hi && n % 64 == b2 - 0x80;
    assert hi / 64 == b0 - 0xE0 && hi % 64 == b1 - 0x80;
    assert n / 4096 == hi / 64;
  }

  lemma Split4(b0: int, b1: Byte, b2: Byte, b3: Byte)
    requires 0xF0 <= b0 < 0xF8 && IsContinuation(b1) && IsContinuation(b2) && IsContinuation(b3)
    ensures var n := Value4(b0, b1, b2, b3);
            && n / 0x40000 == b0 - 0xF0 && (n / 4096) % 64 == b1 - 0x80
            && (n / 64) % 64 == b2 - 0x80 && n % 64 == b3 - 0x80
  {
    var n := Value4(b0, b1, b2, b3);
    var hi := (b0 - 0xF0) * 64 + (b1 as int - 0x80);
    var mid := hi * 64 + (b2 as int - 0x80);
    assert n == mid * 64 + (b3 as int - 0x80);
    assert n / 64 == mid && n % 64 == b3 - 0x80;
    assert mid / 64 == hi && mid % 64 == b2 - 0x80;
    assert hi / 64 == b0 - 0xF0 && hi % 64 == b1 - 0x80;
    assert n / 4096 == mid / 64;
    assert n / 0x40000 == hi / 64;
  }

  /**
   * The decoder accepts only what the encoder produces: whatever decodes
   * re-encodes to the same bytes, so Encode is a bijection onto the
   * well-formed byte strings.
   */
  lemma {:induction false} EncodeDecode(b: seq<Byte>)
    requires Decode(b).Some?
    ensures Encode(Decode(b).value) == b
    decreases |b|
  {
    if b != [] {
      var c, k := DecodeStep(b);
      EncodeDecodeChar(b);
      EncodeDecode(b[k..]);
      EncodeJoin(b, k, c, Decode(b[k..]).value);
    }
  }

  /** One step of decoding: the first character, then the decoding of the rest. */
  lemma DecodeStep(b: seq<Byte>) returns (c: char, k: nat)
    requires b != [] && Decode(b).Some?
    ensures DecodeChar(b) == Some((c, k)) && 1 <= k <= |b|
    ensures Decode(b[k..]).Some? && Decode(b).value == [c] + Decode(b[k..]).value
  {
    c, k := DecodeChar(b).value.0, DecodeChar(b).value.1;
  }

  /** A character encoded as the first `k` bytes, followed by a string encoded as the rest, encodes to all of `b`. */
  lemma EncodeJoin(b: seq<Byte>, k: nat, c: char, rest: string)
    requires k <= |b| && EncodeChar(c) == b[..k] && Encode(rest) == b[k..]
    ensures Encode([c] + rest) == b
  {
    EncodeCons(c, rest);
    assert b[..k] + b[k..] == b;
  }

  /** One step of encoding. */
  lemma EncodeCons(c: char, rest: string)
    ensures Encode([c] + rest) == EncodeChar(c) + Encode(rest)
  {
    assert ([c] + rest)[1..] == rest;
  }
}
