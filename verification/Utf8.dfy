/** UTF-8 as `str.encode` writes it and `bytes.decode(errors="replace")` reads it. */
module Utf8 {
  type Byte = x: int | 0 <= x < 256

  const REPLACEMENT: char := '\U{FFFD}'

  function EncodeChar(c: char): (bs: seq<Byte>)
    ensures 1 <= |bs| <= 4
  {
    var x := c as int;
    if x < 0x80 then [x]
    else if x < 0x800 then [0xC0 + x / 64, 0x80 + x % 64]
    else if x < 0x10000 then [0xE0 + x / 4096, 0x80 + x / 64 % 64, 0x80 + x % 64]
    else [0xF0 + x / 262144, 0x80 + x / 4096 % 64, 0x80 + x / 64 % 64, 0x80 + x % 64]
  }

  function Encode(s: string): seq<Byte> {
    if s == [] then [] else EncodeChar(s[0]) + Encode(s[1..])
  }

  predicate Continues(bs: seq<Byte>, i: nat) {
    i < |bs| && 0x80 <= bs[i] < 0xC0
  }

  /** The six bits a continuation byte carries. */
  function Low(bs: seq<Byte>, i: nat): nat
    requires i < |bs|
  {
    bs[i] % 64
  }

  /** The second byte is restricted after some first bytes: no overlong forms, no surrogates, nothing
      above U+10FFFF. */
  predicate SecondOk(bs: seq<Byte>) {
    && Continues(bs, 1)
    && (bs[0] == 0xE0 ==> bs[1] >= 0xA0) && (bs[0] == 0xED ==> bs[1] < 0xA0)
    && (bs[0] == 0xF0 ==> bs[1] >= 0x90) && (bs[0] == 0xF4 ==> bs[1] < 0x90)
  }

  /** The first character of a non-empty byte string and how many bytes it takes; an ill-formed
      sequence gives one replacement character for its longest well-formed beginning. */
  function DecodeChar(bs: seq<Byte>): (r: (char, nat))
    requires bs != []
    ensures 1 <= r.1 <= |bs|
  {
    var b: int := bs[0];
    if b < 0x80 then (b as char, 1)
    else if b < 0xC2 || b >= 0xF5 || !SecondOk(bs) then (REPLACEMENT, 1)
    else if b < 0xE0 then ((b % 32 * 64 + Low(bs, 1)) as char, 2)
    else if !Continues(bs, 2) then (REPLACEMENT, 2)
    else if b < 0xF0 then ((b % 16 * 4096 + Low(bs, 1) * 64 + Low(bs, 2)) as char, 3)
    else if !Continues(bs, 3) then (REPLACEMENT, 3)
    else ((b % 8 * 262144 + Low(bs, 1) * 4096 + Low(bs, 2) * 64 + Low(bs, 3)) as char, 4)
  }

  function Decode(bs: seq<Byte>): string {
    if bs == [] then [] else [DecodeChar(bs).0] + Decode(bs[DecodeChar(bs).1..])
  }

  lemma TwoBytes(x: nat)
    requires 0x80 <= x < 0x800
    ensures 0xC2 <= 0xC0 + x / 64 < 0xE0 && (0xC0 + x / 64) % 32 * 64 + (0x80 + x % 64) % 64 == x
  {
    assert (0xC0 + x / 64) % 32 == x / 64;
  }

  lemma ThreeBytes(x: nat)
    requires 0x800 <= x < 0x10000
    ensures var a, b := x / 4096, x / 64 % 64;
      && (0xE0 + a) % 16 * 4096 + (0x80 + b) % 64 * 64 + (0x80 + x % 64) % 64 == x
      && (a == 0 ==> b >= 0x20) && (a == 13 && b >= 0x20 ==> 0xD800 <= x < 0xE000)
  {
    assert x / 64 == (x / 4096) * 64 + x / 64 % 64;
    assert (0xE0 + x / 4096) % 16 == x / 4096;
  }

  lemma FourBytes(x: nat)
    requires 0x10000 <= x < 0x110000
    ensures var a, b := x / 262144, x / 4096 % 64;
      && (0xF0 + a) % 8 * 262144 + (0x80 + b) % 64 * 4096 + (0x80 + x / 64 % 64) % 64 * 64 + (0x80 + x % 64) % 64 == x
      && a <= 4 && (a == 0 ==> b >= 0x10) && (a == 4 ==> b < 0x10)
  {
    assert x / 64 == (x / 4096) * 64 + x / 64 % 64;
    assert x / 4096 == (x / 262144) * 64 + x / 4096 % 64;
    assert (0xF0 + x / 262144) % 8 == x / 262144;
  }

  lemma DecodeEncodedChar(c: char, rest: seq<Byte>)
    ensures DecodeChar(EncodeChar(c) + rest) == (c, |EncodeChar(c)|)
  {
    var x := c as int;
    if 0x80 <= x < 0x800 {
      TwoBytes(x);
    } else if 0x800 <= x < 0x10000 {
      ThreeBytes(x);
    } else if 0x10000 <= x {
      FourBytes(x);
    }
  }

  /** Decoding what was encoded gives the text back. */
  lemma {:induction false} DecodeEncode(s: string)
    ensures Decode(Encode(s)) == s
  {
    if s != [] {
      var n := |EncodeChar(s[0])|;
      DecodeEncodedChar(s[0], Encode(s[1..]));
      assert Encode(s)[n..] == Encode(s[1..]);
      DecodeEncode(s[1..]);
      assert s == [s[0]] + s[1..];
    }
  }
}
