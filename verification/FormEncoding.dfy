/** The application/x-www-form-urlencoded format: its serialiser and its parser. */
module FormEncoding {
  import opened Chunks
  import opened Wrappers
  import opened Text
  import opened Utf8

  type Pair = (string, string)

  const AMPERSAND: byte := 0x26
  const EQUALS: byte := 0x3D
  const PLUS: byte := 0x2B
  const PERCENT: byte := 0x25
  const SPACE: byte := 0x20

  /** Letters, digits and `*-._` stand for themselves. */
  predicate IsPlain(b: byte) {
    || 0x30 <= b <= 0x39
    || 0x41 <= b <= 0x5A
    || 0x61 <= b <= 0x7A
    || b == 0x2A || b == 0x2D || b == 0x2E || b == 0x5F
  }

  function HexDigit(n: byte): byte
    requires n < 16
  {
    if n < 10 then 0x30 + n else 0x41 + n - 10
  }

  function HexValue(b: byte): Option<byte> {
    if 0x30 <= b <= 0x39 then Some(b - 0x30)
    else if 0x41 <= b <= 0x46 then Some(b - 0x41 + 10)
    else if 0x61 <= b <= 0x66 then Some(b - 0x61 + 10)
    else None
  }

  function EncodeByte(b: byte): seq<byte> {
    if IsPlain(b) then [b]
    else if b == SPACE then [PLUS]
    else [PERCENT, HexDigit(b / 16), HexDigit(b % 16)]
  }

  function EncodeBytes(bytes: seq<byte>): seq<byte> {
    if bytes == [] then [] else EncodeByte(bytes[0]) + EncodeBytes(bytes[1..])
  }

  function PlusToSpace(bytes: seq<byte>): (r: seq<byte>)
    ensures |r| == |bytes|
  {
    seq(|bytes|, i requires 0 <= i < |bytes| => if bytes[i] == PLUS then SPACE else bytes[i])
  }

  /** A percent sign without two hexadecimal digits after it stands for itself. */
  function PercentDecode(bytes: seq<byte>): seq<byte> {
    if bytes == [] then []
    else if bytes[0] == PERCENT && |bytes| >= 3 && HexValue(bytes[1]).Some? && HexValue(bytes[2]).Some? then
      [HexValue(bytes[1]).value * 16 + HexValue(bytes[2]).value] + PercentDecode(bytes[3..])
    else [bytes[0]] + PercentDecode(bytes[1..])
  }

  function EncodeText(s: string): seq<byte> {
    EncodeBytes(Encode(s))
  }

  function DecodeText(bytes: seq<byte>): string {
    DecodeLossy(PercentDecode(PlusToSpace(bytes)))
  }

  function PairBytes(pair: Pair): seq<byte> {
    EncodeText(pair.0) + [EQUALS] + EncodeText(pair.1)
  }

  function AllPairBytes(pairs: seq<Pair>): (parts: seq<seq<byte>>)
    ensures |parts| == |pairs|
  {
    seq(|pairs|, i requires 0 <= i < |pairs| => PairBytes(pairs[i]))
  }

  function Serialise(pairs: seq<Pair>): seq<byte> {
    Join(AllPairBytes(pairs), AMPERSAND)
  }

  function ParsePair(part: seq<byte>): Pair {
    match SplitOnce(part, EQUALS)
    case Some((name, value)) => (DecodeText(name), DecodeText(value))
    case None => (DecodeText(part), "")
  }

  function ParseParts(parts: seq<seq<byte>>): seq<Pair> {
    if parts == [] then []
    else (if parts[0] == [] then [] else [ParsePair(parts[0])]) + ParseParts(parts[1..])
  }

  function Parse(query: seq<byte>): seq<Pair> {
    ParseParts(Split(query, AMPERSAND))
  }

  // ---- Round trip --------------------------------------------------------------------------------

  lemma EncodedByteDecodes(b: byte, rest: seq<byte>)
    ensures PercentDecode(PlusToSpace(EncodeByte(b)) + rest) == [b] + PercentDecode(rest)
  {
    var bytes := PlusToSpace(EncodeByte(b)) + rest;
    if IsPlain(b) || b == SPACE {
      assert bytes[1..] == rest;
    } else {
      assert bytes[0] == PERCENT && bytes[1] == HexDigit(b / 16) && bytes[2] == HexDigit(b % 16);
      assert bytes[3..] == rest;
      assert b / 16 * 16 + b % 16 == b;
    }
  }

  lemma NothingDecodes()
    ensures PercentDecode([]) == []
  {
  }

  lemma {:induction false} EncodedBytesDecode(bytes: seq<byte>)
    ensures PercentDecode(PlusToSpace(EncodeBytes(bytes))) == bytes
  {
    hide EncodeByte, PercentDecode;
    if bytes == [] {
      NothingDecodes();
    } else {
      var first, rest := EncodeByte(bytes[0]), EncodeBytes(bytes[1..]);
      assert PlusToSpace(first + rest) == PlusToSpace(first) + PlusToSpace(rest);
      EncodedByteDecodes(bytes[0], PlusToSpace(rest));
      EncodedBytesDecode(bytes[1..]);
      assert [bytes[0]] + bytes[1..] == bytes;
    }
  }

  lemma TextRoundTrip(s: string)
    ensures DecodeText(EncodeText(s)) == s
  {
    EncodedBytesDecode(Encode(s));
    DecodeEncoded(s);
  }

  lemma {:induction false} EncodedHasNoSeparator(bytes: seq<byte>)
    ensures AMPERSAND !in EncodeBytes(bytes) && EQUALS !in EncodeBytes(bytes)
  {
    if bytes != [] {
      EncodedHasNoSeparator(bytes[1..]);
    }
  }

  lemma PairRoundTrip(pair: Pair)
    ensures ParsePair(PairBytes(pair)) == pair && PairBytes(pair) != [] && AMPERSAND !in PairBytes(pair)
  {
    hide EncodeText, DecodeText;
    TextRoundTrip(pair.0);
    TextRoundTrip(pair.1);
    NoSeparatorInText(pair.0);
    NoSeparatorInText(pair.1);
    SplitAtFirst(EncodeText(pair.0), EncodeText(pair.1), EQUALS);
  }

  lemma NoSeparatorInText(s: string)
    ensures AMPERSAND !in EncodeText(s) && EQUALS !in EncodeText(s)
  {
    EncodedHasNoSeparator(Encode(s));
  }

  lemma {:induction false} PartsRoundTrip(pairs: seq<Pair>)
    ensures ParseParts(AllPairBytes(pairs)) == pairs
  {
    hide ParsePair, PairBytes;
    if pairs != [] {
      var parts := AllPairBytes(pairs);
      assert parts[1..] == AllPairBytes(pairs[1..]);
      PairRoundTrip(pairs[0]);
      PartsRoundTrip(pairs[1..]);
      assert [pairs[0]] + pairs[1..] == pairs;
    }
  }

  /** Parsing a serialised list of pairs gives it back: any names and values, empty ones included. */
  lemma ParseSerialised(pairs: seq<Pair>)
    ensures Parse(Serialise(pairs)) == pairs
  {
    hide ParsePair, PairBytes;
    if pairs == [] {
      assert Split(Serialise([]), AMPERSAND) == [[]];
      assert ParseParts([[]]) == ParseParts([]);
    } else {
      forall i | 0 <= i < |pairs| ensures AMPERSAND !in AllPairBytes(pairs)[i] {
        PairRoundTrip(pairs[i]);
      }
      SplitJoin(AllPairBytes(pairs), AMPERSAND);
      PartsRoundTrip(pairs);
    }
  }

  // ---- What a query reads as, and what a list is written as --------------------------------------

  lemma {:induction false} PartsConcat(a: seq<seq<byte>>, b: seq<seq<byte>>)
    ensures ParseParts(a + b) == ParseParts(a) + ParseParts(b)
  {
    hide ParsePair;
    if a == [] {
      assert a + b == b;
    } else {
      assert (a + b)[1..] == a[1..] + b;
      PartsConcat(a[1..], b);
    }
  }

  /** An ampersand separates pairs, wherever it is; empty stretches are no pairs. */
  lemma ParseConcat(a: seq<byte>, b: seq<byte>)
    ensures Parse(a + [AMPERSAND] + b) == Parse(a) + Parse(b)
    ensures Parse([]) == []
  {
    SplitConcat(a, b, AMPERSAND);
    PartsConcat(Split(a, AMPERSAND), Split(b, AMPERSAND));
    assert Split([], AMPERSAND) == [[]];
    assert ParseParts([[]]) == ParseParts([]);
  }

  /** One stretch: up to the first equals sign it is the name, and after it the value; without one all is the name. */
  lemma ParseStretch(name: seq<byte>, value: seq<byte>)
    requires AMPERSAND !in name && EQUALS !in name && AMPERSAND !in value
    ensures Parse(name + [EQUALS] + value) == [(DecodeText(name), DecodeText(value))]
    ensures name != [] ==> Parse(name) == [(DecodeText(name), "")]
  {
    hide DecodeText;
    SplitAtFirst(name, value, EQUALS);
    SplitNowhere(name + [EQUALS] + value, AMPERSAND);
    SplitNowhere(name, AMPERSAND);
    SplitNowhere(name, EQUALS);
    OnePart(name + [EQUALS] + value);
    if name != [] { OnePart(name); }
  }

  lemma OnePart(part: seq<byte>)
    requires part != []
    ensures ParseParts([part]) == [ParsePair(part)]
  {
    assert [part][1..] == [];
  }

  /** A percent sign that two hexadecimal digits do not follow stands for itself. */
  lemma BadPercentStays(bytes: seq<byte>)
    requires !(|bytes| >= 2 && HexValue(bytes[0]).Some? && HexValue(bytes[1]).Some?)
    ensures PercentDecode([PERCENT] + bytes) == [PERCENT] + PercentDecode(bytes)
  {
    var all := [PERCENT] + bytes;
    assert all[1..] == bytes && (|all| >= 3 ==> all[1] == bytes[0] && all[2] == bytes[1]);
  }

  lemma {:induction false} EncodeConcat(a: seq<byte>, b: seq<byte>)
    ensures EncodeBytes(a + b) == EncodeBytes(a) + EncodeBytes(b)
  {
    hide EncodeByte;
    if a == [] {
      assert a + b == b;
    } else {
      assert (a + b)[1..] == a[1..] + b;
      EncodeConcat(a[1..], b);
    }
  }

  /** A percent sign and two hexadecimal digits in capitals, of this value. */
  predicate IsEscape(bytes: seq<byte>, b: byte) {
    && |bytes| == 3 && bytes[0] == 0x25
    && HexValue(bytes[1]) == Some(b / 16) && HexValue(bytes[2]) == Some(b % 16)
    && bytes[1] <= 0x46 && bytes[2] <= 0x46
  }

  /** Each byte is written on its own: letters, digits and `*-._` as they are, a space as `+`, others escaped. */
  lemma WrittenAs(before: seq<byte>, b: byte, after: seq<byte>)
    ensures EncodeBytes(before + [b] + after) == EncodeBytes(before) + EncodeByte(b) + EncodeBytes(after)
    ensures var c := b as int as char;
            if 'a' <= c <= 'z' || 'A' <= c <= 'Z' || '0' <= c <= '9' || c in {'*', '-', '.', '_'}
            then EncodeByte(b) == [b]
            else if c == ' ' then EncodeByte(b) == ['+' as byte]
            else IsEscape(EncodeByte(b), b)
  {
    WrittenAlone(b);
    EscapedInCapitals(b);
    hide EncodeByte, EncodeBytes, IsEscape;
    EncodeConcat(before + [b], after);
    EncodeConcat(before, [b]);
  }

  lemma WrittenAlone(b: byte)
    ensures EncodeBytes([b]) == EncodeByte(b)
  {
    assert [b][1..] == [];
    hide EncodeByte;
  }

  lemma EscapedInCapitals(b: byte)
    ensures var c := b as int as char;
            if 'a' <= c <= 'z' || 'A' <= c <= 'Z' || '0' <= c <= '9' || c in {'*', '-', '.', '_'}
            then EncodeByte(b) == [b]
            else if c == ' ' then EncodeByte(b) == ['+' as byte]
            else IsEscape(EncodeByte(b), b)
  {
  }
}
