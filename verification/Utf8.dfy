/** UTF-8, with the lossy decoding that puts U+FFFD for each malformed stretch. */
module Utf8 {
  import opened Chunks
  import opened Wrappers

  const REPLACEMENT: char := '\U{FFFD}'

  function EncodeChar(c: char): (bytes: seq<byte>)
    ensures 1 <= |bytes| <= 4
  {
    var n := c as int;
    if n < 0x80 then [n as byte]
    else if n < 0x800 then [(0xC0 + n / 64) as byte, (0x80 + n % 64) as byte]
    else if n < 0x10000 then
      [(0xE0 + n / 4096) as byte, (0x80 + n / 64 % 64) as byte, (0x80 + n % 64) as byte]
    else
      [(0xF0 + n / 262144) as byte, (0x80 + n / 4096 % 64) as byte,
       (0x80 + n / 64 % 64) as byte, (0x80 + n % 64) as byte]
  }

  function Encode(s: string): seq<byte> {
    if s == "" then [] else EncodeChar(s[0]) + Encode(s[1..])
  }

  predicate ByteIn(bytes: seq<byte>, i: nat, low: byte, high: byte) {
    i < |bytes| && low <= bytes[i] <= high
  }

  predicate Continues(bytes: seq<byte>, i: nat) {
    ByteIn(bytes, i, 0x80, 0xBF)
  }

  /** What may follow the first byte of a three- or four-byte form: neither overlong nor a surrogate. */
  predicate SecondFits(bytes: seq<byte>)
    requires bytes != []
  {
    match bytes[0]
    case 0xE0 => ByteIn(bytes, 1, 0xA0, 0xBF)
    case 0xED => ByteIn(bytes, 1, 0x80, 0x9F)
    case 0xF0 => ByteIn(bytes, 1, 0x90, 0xBF)
    case 0xF4 => ByteIn(bytes, 1, 0x80, 0x8F)
    case _ => Continues(bytes, 1)
  }

  /** The first character, and how many bytes it takes up. */
  function Head(bytes: seq<byte>): (r: (char, nat))
    requires bytes != []
    ensures 1 <= r.1 <= |bytes|
  {
    var a := bytes[0] as int;
    if a < 0x80 then (a as char, 1)
    else if 0xC2 <= a < 0xE0 then
      if !Continues(bytes, 1) then (REPLACEMENT, 1)
      else (((a - 0xC0) * 64 + (bytes[1] as int - 0x80)) as char, 2)
    else if 0xE0 <= a < 0xF0 then
      if !SecondFits(bytes) then (REPLACEMENT, 1)
      else if !Continues(bytes, 2) then (REPLACEMENT, 2)
      else (((a - 0xE0) * 4096 + (bytes[1] as int - 0x80) * 64 + (bytes[2] as int - 0x80)) as char, 3)
    else if 0xF0 <= a < 0xF5 then
      if !SecondFits(bytes) then (REPLACEMENT, 1)
      else if !Continues(bytes, 2) then (REPLACEMENT, 2)
      else if !Continues(bytes, 3) then (REPLACEMENT, 3)
      else
        (((a - 0xF0) * 262144 + (bytes[1] as int - 0x80) * 4096
          + (bytes[2] as int - 0x80) * 64 + (bytes[3] as int - 0x80)) as char, 4)
    else (REPLACEMENT, 1)
  }

  function DecodeLossy(bytes: seq<byte>): string {
    if bytes == [] then "" else [Head(bytes).0] + DecodeLossy(bytes[Head(bytes).1..])
  }

  /** The base-64 digits of a number. */
  lemma Digits(n: nat)
    ensures n == n / 4096 * 4096 + n / 64 % 64 * 64 + n % 64
    ensures n / 4096 == n / 262144 * 64 + n / 4096 % 64
  {
    assert n / 64 / 64 == n / 4096 && n / 4096 / 64 == n / 262144;
  }

  lemma HeadOfTwo(c: char, rest: seq<byte>)
    requires 0x80 <= c as int < 0x800
    ensures Head(EncodeChar(c) + rest) == (c, 2)
  {
    var n := c as int;
    var bytes := EncodeChar(c) + rest;
    assert bytes[0] as int == 0xC0 + n / 64 && bytes[1] as int == 0x80 + n % 64;
    assert Continues(bytes, 1);
  }

  lemma HeadOfThree(c: char, rest: seq<byte>)
    requires 0x800 <= c as int < 0x10000
    ensures Head(EncodeChar(c) + rest) == (c, 3)
  {
    var n := c as int;
    var bytes := EncodeChar(c) + rest;
    var x, y, z := n / 4096, n / 64 % 64, n % 64;
    Digits(n);
    assert bytes[0] as int == 0xE0 + x && bytes[1] as int == 0x80 + y && bytes[2] as int == 0x80 + z;
    assert SecondFits(bytes);
    assert Continues(bytes, 2);
  }

  lemma HeadOfFour(c: char, rest: seq<byte>)
    requires 0x10000 <= c as int
    ensures Head(EncodeChar(c) + rest) == (c, 4)
  {
    var n := c as int;
    var bytes := EncodeChar(c) + rest;
    var w, x, y, z := n / 262144, n / 4096 % 64, n / 64 % 64, n % 64;
    Digits(n);
    assert bytes[0] as int == 0xF0 + w && bytes[1] as int == 0x80 + x;
    assert bytes[2] as int == 0x80 + y && bytes[3] as int == 0x80 + z;
    assert SecondFits(bytes);
    assert Continues(bytes, 2) && Continues(bytes, 3);
  }

  lemma HeadOfEncoded(c: char, rest: seq<byte>)
    ensures Head(EncodeChar(c) + rest) == (c, |EncodeChar(c)|)
  {
    var n := c as int;
    if n < 0x80 {
      assert (EncodeChar(c) + rest)[0] as int == n;
    } else if n < 0x800 {
      HeadOfTwo(c, rest);
    } else if n < 0x10000 {
      HeadOfThree(c, rest);
    } else {
      HeadOfFour(c, rest);
    }
  }

  /** Decoding gives back any encoded text. */
  lemma {:induction false} DecodeEncoded(s: string)
    ensures DecodeLossy(Encode(s)) == s
  {
    hide Head, EncodeChar;
    if s != "" {
      HeadOfEncoded(s[0], Encode(s[1..]));
      assert Encode(s)[|EncodeChar(s[0])|..] == Encode(s[1..]);
      DecodeEncoded(s[1..]);
      assert [s[0]] + s[1..] == s;
    }
  }

  // ---- Strict decoding ---------------------------------------------------------------------------

  /** The text that these bytes encode, if they are well formed. */
  function FromUtf8(bytes: seq<byte>): Option<string> {
    var s := DecodeLossy(bytes);
    if Encode(s) == bytes then Some(s) else None
  }

  /** Strict decoding accepts exactly what encodes a text. */
  lemma FromUtf8Iff(bytes: seq<byte>, s: string)
    ensures FromUtf8(bytes) == Some(s) <==> Encode(s) == bytes
  {
    if Encode(s) == bytes { DecodeEncoded(s); }
  }
}
