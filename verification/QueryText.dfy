/** How the text assigned to `URL.search` becomes the query: the query state of the URL Standard, section 4.4. */
module QueryText {
  import opened Chunks
  import opened Text
  import opened Utf8
  import opened FormEncoding

  const QUESTION_MARK: byte := 0x3F

  predicate IsTabOrNewline(c: char) {
    c == '\t' || c == '\n' || c == '\r'
  }

  function StripTabsAndNewlines(s: string): string {
    if s == "" then ""
    else if IsTabOrNewline(s[0]) then StripTabsAndNewlines(s[1..])
    else [s[0]] + StripTabsAndNewlines(s[1..])
  }

  /** The query percent-encode set; a special scheme adds the apostrophe. */
  predicate InQuerySet(b: byte, special: bool) {
    b < 0x20 || b > 0x7E || b in {0x20, 0x22, 0x23, 0x3C, 0x3E} || (special && b == 0x27)
  }

  function EncodeQueryByte(b: byte, special: bool): seq<byte> {
    if InQuerySet(b, special) then [PERCENT, HexDigit(b / 16), HexDigit(b % 16)] else [b]
  }

  function EncodeQueryBytes(bytes: seq<byte>, special: bool): seq<byte> {
    if bytes == [] then [] else EncodeQueryByte(bytes[0], special) + EncodeQueryBytes(bytes[1..], special)
  }

  function StoredQuery(search: string, special: bool): seq<byte> {
    EncodeQueryBytes(Encode(StripTabsAndNewlines(search)), special)
  }

  /** The text that a stored query reads as: it is all ASCII. */
  function Ascii(bytes: seq<byte>): (s: string)
    requires IsAscii(bytes)
    ensures |s| == |bytes|
  {
    seq(|bytes|, i requires 0 <= i < |bytes| => bytes[i] as int as char)
  }

  predicate IsAscii(bytes: seq<byte>) {
    forall i :: 0 <= i < |bytes| ==> bytes[i] < 0x80
  }

  /** Printable, and outside both percent-encode sets. */
  predicate IsSafe(b: byte) {
    0x20 < b < 0x7F && !InQuerySet(b, true)
  }

  ghost predicate AllSafe(bytes: seq<byte>) {
    forall i :: 0 <= i < |bytes| ==> IsSafe(bytes[i])
  }

  lemma {:induction false} EncodedIsSafe(bytes: seq<byte>)
    ensures AllSafe(EncodeBytes(bytes))
  {
    if bytes != [] {
      EncodedIsSafe(bytes[1..]);
      EncodedByteIsSafe(bytes[0]);
    }
  }

  lemma EncodedByteIsSafe(b: byte)
    ensures AllSafe(EncodeByte(b))
  {
    assert IsSafe(HexDigit(b / 16)) && IsSafe(HexDigit(b % 16));
  }

  lemma {:induction false} JoinIsSafe(parts: seq<seq<byte>>)
    requires forall i :: 0 <= i < |parts| ==> AllSafe(parts[i])
    ensures AllSafe(Join(parts, AMPERSAND))
  {
    if |parts| > 1 { JoinIsSafe(parts[1..]); }
  }

  lemma SerialisedIsSafe(pairs: seq<Pair>)
    ensures AllSafe(Serialise(pairs))
  {
    forall i | 0 <= i < |pairs| ensures AllSafe(AllPairBytes(pairs)[i]) {
      EncodedIsSafe(Encode(pairs[i].0));
      EncodedIsSafe(Encode(pairs[i].1));
    }
    JoinIsSafe(AllPairBytes(pairs));
  }

  lemma {:induction false} SafeIsStoredAsIs(bytes: seq<byte>, special: bool)
    requires AllSafe(bytes)
    ensures IsAscii(bytes) && StoredQuery(Ascii(bytes), special) == bytes
  {
    if bytes != [] {
      SafeIsStoredAsIs(bytes[1..], special);
      var s := Ascii(bytes);
      assert s[1..] == Ascii(bytes[1..]);
      SafeByteStored(bytes[0], Encode(StripTabsAndNewlines(s[1..])), special);
      assert bytes == [bytes[0]] + bytes[1..];
      assert StripTabsAndNewlines(s) == [s[0]] + StripTabsAndNewlines(s[1..]);
      assert Encode(StripTabsAndNewlines(s)) == EncodeChar(s[0]) + Encode(StripTabsAndNewlines(s[1..])) by {
        assert ([s[0]] + StripTabsAndNewlines(s[1..]))[1..] == StripTabsAndNewlines(s[1..]);
      }
    }
  }

  lemma SafeByteStored(b: byte, rest: seq<byte>, special: bool)
    requires IsSafe(b)
    ensures EncodeQueryBytes(EncodeChar(b as int as char) + rest, special) == [b] + EncodeQueryBytes(rest, special)
  {
    assert EncodeChar(b as int as char) == [b];
    assert ([b] + rest)[1..] == rest;
  }

  /** The text of a serialised list, assigned to `search`, gives the list back. */
  lemma SearchRoundTrip(pairs: seq<Pair>, special: bool)
    ensures IsAscii(Serialise(pairs))
    ensures Parse(StoredQuery(Ascii(Serialise(pairs)), special)) == pairs
  {
    hide Parse, Serialise, StoredQuery, Ascii;
    SerialisedIsSafe(pairs);
    SafeIsStoredAsIs(Serialise(pairs), special);
    ParseSerialised(pairs);
  }

  // ---- A leading question mark ---------------------------------------------------------------------

  lemma MarkDecodes(bytes: seq<byte>)
    ensures DecodeText([QUESTION_MARK] + bytes) == "?" + DecodeText(bytes)
  {
    var plain := PlusToSpace(bytes);
    assert PlusToSpace([QUESTION_MARK] + bytes) == [QUESTION_MARK] + plain;
    assert ([QUESTION_MARK] + plain)[1..] == plain;
    var decoded := PercentDecode(plain);
    assert PercentDecode([QUESTION_MARK] + plain) == [QUESTION_MARK] + decoded;
    MarkIsAChar(decoded);
  }

  lemma MarkIsAChar(bytes: seq<byte>)
    ensures DecodeLossy([QUESTION_MARK] + bytes) == "?" + DecodeLossy(bytes)
  {
    var marked := [QUESTION_MARK] + bytes;
    assert Head(marked) == ('?', 1) && marked[1..] == bytes;
  }

  lemma MarkedPair(pair: Pair)
    ensures ParsePair([QUESTION_MARK] + PairBytes(pair)) == ("?" + pair.0, pair.1)
    ensures AMPERSAND !in [QUESTION_MARK] + PairBytes(pair)
  {
    hide EncodeText, DecodeText;
    var name := [QUESTION_MARK] + EncodeText(pair.0);
    NoSeparatorInText(pair.0);
    NoSeparatorInText(pair.1);
    SplitAtFirst(name, EncodeText(pair.1), EQUALS);
    assert name + [EQUALS] + EncodeText(pair.1) == [QUESTION_MARK] + PairBytes(pair);
    MarkDecodes(EncodeText(pair.0));
    TextRoundTrip(pair.0);
    TextRoundTrip(pair.1);
  }

  lemma JoinMarked(first: seq<byte>, rest: seq<seq<byte>>)
    ensures [QUESTION_MARK] + Join([first] + rest, AMPERSAND) == Join([[QUESTION_MARK] + first] + rest, AMPERSAND)
  {
    assert ([first] + rest)[1..] == rest && ([[QUESTION_MARK] + first] + rest)[1..] == rest;
  }

  /**
   `search` is assigned as it stands. A leading question mark, which the getter always puts there and
   the setter of the URL Standard (section 6.1) takes away, becomes part of the first name.
   */
  lemma AssigningSearchToItself(pairs: seq<Pair>, special: bool)
    requires pairs != []
    ensures AllSafe([QUESTION_MARK] + Serialise(pairs))
    ensures Parse(StoredQuery(Ascii([QUESTION_MARK] + Serialise(pairs)), special)) ==
            [("?" + pairs[0].0, pairs[0].1)] + pairs[1..]
  {
    hide PairBytes, ParsePair, StoredQuery, Ascii;
    SerialisedIsSafe(pairs);
    SafeIsStoredAsIs([QUESTION_MARK] + Serialise(pairs), special);
    var first, rest := PairBytes(pairs[0]), AllPairBytes(pairs[1..]);
    assert AllPairBytes(pairs) == [first] + rest;
    JoinMarked(first, rest);
    MarkedPair(pairs[0]);
    var parts := [[QUESTION_MARK] + first] + rest;
    forall i | 0 <= i < |parts| ensures AMPERSAND !in parts[i] {
      if i > 0 { PairRoundTrip(pairs[i]); }
    }
    SplitJoin(parts, AMPERSAND);
    assert parts[1..] == rest;
    PartsRoundTrip(pairs[1..]);
  }

  // ---- What the stored query reads as ------------------------------------------------------------

  /** Nothing that the query state encodes is left, and all is ASCII. */
  lemma {:induction false} StoredIsClean(bytes: seq<byte>, special: bool)
    ensures var stored := EncodeQueryBytes(bytes, special);
            IsAscii(stored) && forall i :: 0 <= i < |stored| ==> !InQuerySet(stored[i], special)
  {
    if bytes != [] {
      StoredIsClean(bytes[1..], special);
      assert forall n: byte :: n < 16 ==> !InQuerySet(HexDigit(n), special);
    }
  }

  lemma {:induction false} QueryConcat(a: seq<byte>, b: seq<byte>, special: bool)
    ensures EncodeQueryBytes(a + b, special) == EncodeQueryBytes(a, special) + EncodeQueryBytes(b, special)
  {
    hide EncodeQueryByte;
    if a == [] {
      assert a + b == b;
    } else {
      assert (a + b)[1..] == a[1..] + b;
      QueryConcat(a[1..], b, special);
    }
  }

  /** A separator comes out of the encoding exactly where it went in. */
  lemma {:induction false} SeparatorStays(bytes: seq<byte>, sep: byte, special: bool)
    requires sep == AMPERSAND || sep == EQUALS
    ensures sep in EncodeQueryBytes(bytes, special) <==> sep in bytes
  {
    if bytes != [] {
      SeparatorStays(bytes[1..], sep, special);
      assert forall n: byte :: n < 16 ==> HexDigit(n) != sep;
      assert bytes == [bytes[0]] + bytes[1..];
    }
  }

  lemma StoredAround(a: seq<byte>, sep: byte, b: seq<byte>, special: bool)
    requires sep == AMPERSAND || sep == EQUALS
    ensures EncodeQueryBytes(a + [sep] + b, special)
            == EncodeQueryBytes(a, special) + [sep] + EncodeQueryBytes(b, special)
    ensures sep !in a ==> sep !in EncodeQueryBytes(a, special)
  {
    QueryConcat(a, [sep] + b, special);
    assert a + ([sep] + b) == a + [sep] + b;
    KeptByte(sep, b, special);
    SeparatorStays(a, sep, special);
    hide EncodeQueryBytes;
  }


  /** What a query reads as before its separators are looked at. */
  function Reading(bytes: seq<byte>): seq<byte> {
    PercentDecode(PlusToSpace(bytes))
  }

  predicate StartsWithHex(bytes: seq<byte>) {
    |bytes| >= 2 && HexValue(bytes[0]).Some? && HexValue(bytes[1]).Some?
  }

  lemma ReadingOfEscape(a: byte, b: byte, rest: seq<byte>)
    requires HexValue(a).Some? && HexValue(b).Some?
    ensures Reading([PERCENT, a, b] + rest) == [HexValue(a).value * 16 + HexValue(b).value] + Reading(rest)
  {
    var plain := PlusToSpace([PERCENT, a, b] + rest);
    assert plain[0] == PERCENT && plain[1] == a && plain[2] == b && plain[3..] == PlusToSpace(rest);
  }

  lemma ReadingOfOther(b: byte, rest: seq<byte>)
    requires b == PERCENT ==> !StartsWithHex(rest)
    ensures Reading([b] + rest) == [if b == PLUS then SPACE else b] + Reading(rest)
  {
    var plain := PlusToSpace([b] + rest);
    assert plain[1..] == PlusToSpace(rest);
    assert |rest| >= 2 ==> plain[1] == PlusToSpace(rest)[0] && plain[2] == PlusToSpace(rest)[1];
  }

  lemma KeptByte(b: byte, rest: seq<byte>, special: bool)
    requires !InQuerySet(b, special)
    ensures EncodeQueryBytes([b] + rest, special) == [b] + EncodeQueryBytes(rest, special)
  {
    assert ([b] + rest)[1..] == rest;
  }

  lemma EscapeIsStored(a: byte, b: byte, rest: seq<byte>, special: bool)
    requires HexValue(a).Some? && HexValue(b).Some?
    ensures EncodeQueryBytes([PERCENT, a, b] + rest, special) == [PERCENT, a, b] + EncodeQueryBytes(rest, special)
  {
    hide EncodeQueryBytes;
    KeptByte(b, rest, special);
    KeptByte(a, [b] + rest, special);
    KeptByte(PERCENT, [a] + ([b] + rest), special);
    assert [PERCENT, a, b] + rest == [PERCENT] + ([a] + ([b] + rest));
  }


  /** Encoding brings no two hexadecimal digits to the front that were not there. */
  lemma NoNewHex(bytes: seq<byte>, special: bool)
    ensures StartsWithHex(EncodeQueryBytes(bytes, special)) ==> StartsWithHex(bytes)
  {
    if bytes != [] {
      var stored := EncodeQueryBytes(bytes, special);
      assert InQuerySet(bytes[0], special) ==> stored[0] == PERCENT;
      assert !InQuerySet(bytes[0], special) ==>
          stored[0] == bytes[0] && stored[1..] == EncodeQueryBytes(bytes[1..], special);
      if |bytes| > 1 {
        assert bytes[1..][0] == bytes[1];
        assert EncodeQueryBytes(bytes[1..], special)[0] == if InQuerySet(bytes[1], special) then PERCENT else bytes[1];
      } else {
        assert EncodeQueryBytes(bytes[1..], special) == [];
      }
    }
  }

  lemma {:induction false} StoredReadsAlike(bytes: seq<byte>, special: bool)
    ensures Reading(EncodeQueryBytes(bytes, special)) == Reading(bytes)
    decreases |bytes|
  {
    hide PercentDecode, PlusToSpace;
    if bytes != [] {
      var b, rest := bytes[0], bytes[1..];
      assert bytes == [b] + rest;
      if b == PERCENT && StartsWithHex(rest) {
        var later := rest[2..];
        assert bytes == [PERCENT, rest[0], rest[1]] + later;
        EscapeIsStored(rest[0], rest[1], later, special);
        ReadingOfEscape(rest[0], rest[1], later);
        ReadingOfEscape(rest[0], rest[1], EncodeQueryBytes(later, special));
        StoredReadsAlike(later, special);
      } else {
        StoredReadsAlike(rest, special);
        ReadingOfOther(b, rest);
        var stored := EncodeQueryBytes(rest, special);
        if InQuerySet(b, special) {
          ReadingOfEscape(HexDigit(b / 16), HexDigit(b % 16), stored);
          assert b / 16 * 16 + b % 16 == b;
        } else {
          NoNewHex(rest, special);
          ReadingOfOther(b, stored);
        }
      }
    }
  }

  /** A part of the text, as the query holds it. */
  function StoredParts(parts: seq<seq<byte>>, special: bool): (stored: seq<seq<byte>>)
    ensures |stored| == |parts|
  {
    seq(|parts|, i requires 0 <= i < |parts| => EncodeQueryBytes(parts[i], special))
  }

  lemma {:induction false} SplitStored(bytes: seq<byte>, special: bool)
    ensures Split(EncodeQueryBytes(bytes, special), AMPERSAND) == StoredParts(Split(bytes, AMPERSAND), special)
    decreases |bytes|
  {
    hide EncodeQueryByte, EncodeQueryBytes, Split, SplitOnce, StoredParts;
    if AMPERSAND !in bytes {
      SeparatorStays(bytes, AMPERSAND, special);
      SplitNowhere(bytes, AMPERSAND);
      SplitNowhere(EncodeQueryBytes(bytes, special), AMPERSAND);
      StoredFirst(bytes, [], special);
      StoredNone(special);
      assert [bytes] + [] == [bytes] && [EncodeQueryBytes(bytes, special)] + [] == [EncodeQueryBytes(bytes, special)];
    } else {
      var i :| 0 <= i < |bytes| && bytes[i] == AMPERSAND && AMPERSAND !in bytes[..i] by { FirstAt(bytes, AMPERSAND); }
      var a, b := bytes[..i], bytes[i + 1..];
      assert bytes == a + [AMPERSAND] + b;
      StoredAround(a, AMPERSAND, b, special);
      SplitAtFirst(a, b, AMPERSAND);
      SplitAtFirst(EncodeQueryBytes(a, special), EncodeQueryBytes(b, special), AMPERSAND);
      SplitStored(b, special);
      StoredFirst(a, Split(b, AMPERSAND), special);
    }
  }

  lemma StoredNone(special: bool)
    ensures StoredParts([], special) == []
  {
  }

  lemma StoredFirst(part: seq<byte>, parts: seq<seq<byte>>, special: bool)
    ensures StoredParts([part] + parts, special) == [EncodeQueryBytes(part, special)] + StoredParts(parts, special)
  {
    hide EncodeQueryBytes;
  }

  lemma {:induction false} FirstAt(bytes: seq<byte>, sep: byte)
    requires sep in bytes
    ensures exists i :: 0 <= i < |bytes| && bytes[i] == sep && sep !in bytes[..i]
  {
    if bytes[0] == sep {
      assert sep !in bytes[..0];
    } else {
      FirstAt(bytes[1..], sep);
      var i :| 0 <= i < |bytes[1..]| && bytes[1..][i] == sep && sep !in bytes[1..][..i];
      assert bytes[..i + 1] == [bytes[0]] + bytes[1..][..i] && bytes[i + 1] == sep;
    }
  }

  lemma PairStored(part: seq<byte>, special: bool)
    ensures ParsePair(EncodeQueryBytes(part, special)) == ParsePair(part)
    ensures EncodeQueryBytes(part, special) == [] <==> part == []
  {
    hide EncodeQueryByte, PercentDecode, PlusToSpace;
    StoredReadsAlike(part, special);
    if EQUALS in part {
      var i :| 0 <= i < |part| && part[i] == EQUALS && EQUALS !in part[..i] by { FirstAt(part, EQUALS); }
      var a, b := part[..i], part[i + 1..];
      assert part == a + [EQUALS] + b;
      hide EncodeQueryBytes;
      StoredAround(a, EQUALS, b, special);
      SplitAtFirst(a, b, EQUALS);
      SplitAtFirst(EncodeQueryBytes(a, special), EncodeQueryBytes(b, special), EQUALS);
      StoredReadsAlike(a, special);
      StoredReadsAlike(b, special);
    } else {
      SeparatorStays(part, EQUALS, special);
      SplitNowhere(part, EQUALS);
      SplitNowhere(EncodeQueryBytes(part, special), EQUALS);
      NothingStored(part, special);
    }
  }

  lemma NothingStored(part: seq<byte>, special: bool)
    ensures EncodeQueryBytes(part, special) == [] <==> part == []
  {
  }

  lemma {:induction false} PartsStored(parts: seq<seq<byte>>, special: bool)
    ensures ParseParts(StoredParts(parts, special)) == ParseParts(parts)
  {
    hide ParsePair, EncodeQueryBytes;
    if parts != [] {
      PairStored(parts[0], special);
      PartsStored(parts[1..], special);
      assert StoredParts(parts, special)[1..] == StoredParts(parts[1..], special);
    }
  }

  /** Storing the text assigned to `search` changes no pair: the parameters show what the text itself reads as. */
  lemma StoredKeepsPairs(search: string, special: bool)
    ensures Parse(StoredQuery(search, special)) == Parse(Encode(StripTabsAndNewlines(search)))
  {
    hide EncodeQueryBytes, ParseParts, Split;
    var bytes := Encode(StripTabsAndNewlines(search));
    SplitStored(bytes, special);
    PartsStored(Split(bytes, AMPERSAND), special);
  }

  /** Tabs and newlines are taken out, wherever they are, and nothing else is. */
  lemma {:induction false} StripsTabs(a: string, c: char, b: string)
    ensures StripTabsAndNewlines(a + [c] + b) ==
            StripTabsAndNewlines(a) + (if c in {'\t', '\n', '\r'} then "" else [c]) + StripTabsAndNewlines(b)
  {
    var all := a + [c] + b;
    if a == "" {
      assert all[0] == c && all[1..] == b;
    } else {
      assert all[0] == a[0] && all[1..] == a[1..] + [c] + b;
      StripsTabs(a[1..], c, b);
    }
  }

  /**
   Each byte is stored on its own: controls, a space, `"#<>` and all beyond ASCII are escaped, an apostrophe
   only under a special scheme.
   */
  lemma StoredAs(before: seq<byte>, b: byte, after: seq<byte>, special: bool)
    ensures EncodeQueryBytes(before + [b] + after, special)
            == EncodeQueryBytes(before, special) + EncodeQueryByte(b, special) + EncodeQueryBytes(after, special)
    ensures var c := b as int as char;
            if ' ' < c <= '~' && c !in {'"', '#', '<', '>'} && !(special && c == '\'')
            then EncodeQueryByte(b, special) == [b]
            else IsEscape(EncodeQueryByte(b, special), b)
  {
    StoredByte(b, special);
    StoredAlone(b, special);
    hide EncodeQueryByte, EncodeQueryBytes, IsEscape;
    QueryConcat(before + [b], after, special);
    QueryConcat(before, [b], special);
  }

  lemma StoredAlone(b: byte, special: bool)
    ensures EncodeQueryBytes([b], special) == EncodeQueryByte(b, special)
  {
    assert [b][1..] == [];
    hide EncodeQueryByte;
  }

  lemma StoredByte(b: byte, special: bool)
    ensures var c := b as int as char;
            if ' ' < c <= '~' && c !in {'"', '#', '<', '>'} && !(special && c == '\'')
            then EncodeQueryByte(b, special) == [b]
            else IsEscape(EncodeQueryByte(b, special), b)
  {
  }
}
