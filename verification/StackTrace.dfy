/** Stack traces: printing records and parsing them again. */
module StackTrace {
  import opened Wrappers
  import opened Text
  import opened NormalPath

  const U32_LIMIT := 0x1_0000_0000

  newtype u32 = n: int | 0 <= n < U32_LIMIT

  datatype Record = Record(function_: Option<string>, file: string, lineno: u32, column: u32)

  // ---- Numbers ----------------------------------------------------------------------------------

  function Digit(d: nat): char
    requires d < 10
  {
    '0' + d as char
  }

  predicate IsDigit(c: char) { '0' <= c <= '9' }

  function Decimal(n: nat): (s: string)
    ensures s != "" && forall i :: 0 <= i < |s| ==> IsDigit(s[i])
  {
    if n < 10 then [Digit(n)] else Decimal(n / 10) + [Digit(n % 10)]
  }

  function DigitsValue(s: string): Option<nat> {
    if s == "" then Some(0)
    else if !IsDigit(s[|s| - 1]) then None
    else
      match DigitsValue(s[..|s| - 1])
      case None => None
      case Some(n) => Some(10 * n + (s[|s| - 1] - '0') as nat)
  }

  /** u32::from_str: digits, after an optional plus sign, whose value fits. */
  function ParseU32(s: string): Option<u32> {
    var digits := if s != "" && s[0] == '+' then s[1..] else s;
    if digits == "" then None
    else
      match DigitsValue(digits)
      case Some(n) => if n < U32_LIMIT then Some(n as u32) else None
      case None => None
  }

  lemma {:induction false} DecimalValue(n: nat)
    ensures DigitsValue(Decimal(n)) == Some(n)
  {
    var s := Decimal(n);
    if n < 10 {
      assert s[..|s| - 1] == "";
    } else {
      assert s[..|s| - 1] == Decimal(n / 10);
      DecimalValue(n / 10);
    }
  }

  lemma ParseDecimal(n: u32)
    ensures ParseU32(Decimal(n as nat)) == Some(n)
  {
    DecimalValue(n as nat);
    assert Decimal(n as nat)[0] != '+';
  }

  lemma DecimalIsPlain(n: nat, c: char)
    requires !IsDigit(c)
    ensures c !in Decimal(n)
  {
  }

  // ---- Printing and parsing ----------------------------------------------------------------------

  function Display(r: Record): string {
    (if r.function_.Some? then r.function_.value else "") + "@" + Position(r)
  }

  function Position(r: Record): string {
    r.file + ":" + Decimal(r.lineno as nat) + ":" + Decimal(r.column as nat)
  }

  function Displays(records: seq<Record>): (lines: seq<string>)
    ensures |lines| == |records|
  {
    seq(|records|, i requires 0 <= i < |records| => Display(records[i]))
  }

  function Show(records: seq<Record>): string {
    Join(Displays(records), '\n')
  }

  /** A line without the carriage return that belongs to its line ending. */
  function Trimmed(line: string): string {
    if line != "" && line[|line| - 1] == '\r' then line[..|line| - 1] else line
  }

  function TrimmedAll(lines: seq<string>): (trimmed: seq<string>)
    ensures |trimmed| == |lines|
  {
    seq(|lines|, i requires 0 <= i < |lines| => Trimmed(lines[i]))
  }

  /** str::lines: what follows the last newline is a line only if it is not empty. */
  function Lines(s: string): seq<string> {
    var parts := Split(s, '\n');
    var n := |parts| - 1;
    TrimmedAll(parts[..n]) + (if parts[n] == "" then [] else [parts[n]])
  }

  /** One line; None where the source would fail an `unwrap`. */
  function ParseLine(line: string): Option<Record> {
    match SplitOnce(line, '@')
    case None => None
    case Some((name, position)) =>
      match SplitLast(position, ':')
      case None => None
      case Some((place, column)) =>
        match SplitLast(place, ':')
        case None => None
        case Some((file, lineno)) =>
          match (ParseU32(lineno), ParseU32(column))
          case (Some(l), Some(c)) =>
            Some(Record(if name == "" then None else Some(name), NormalString(file), l, c))
          case _ => None
  }

  function ParseLines(lines: seq<string>): Option<seq<Record>> {
    if lines == [] then Some([])
    else
      match (ParseLine(lines[0]), ParseLines(lines[1..]))
      case (Some(r), Some(rest)) => Some([r] + rest)
      case _ => None
  }

  function After(done: seq<Record>, rest: Option<seq<Record>>): Option<seq<Record>> {
    match rest
    case Some(records) => Some(done + records)
    case None => None
  }

  lemma ParseLinesStep(lines: seq<string>, i: nat, done: seq<Record>)
    requires i < |lines|
    ensures ParseLine(lines[i]) == None ==> ParseLines(lines[i..]) == None
    ensures ParseLine(lines[i]).Some? ==>
              After(done, ParseLines(lines[i..])) ==
              After(done + [ParseLine(lines[i]).value], ParseLines(lines[i + 1..]))
  {
    hide ParseLine;
    assert lines[i..][0] == lines[i] && lines[i..][1..] == lines[i + 1..];
    var rest := ParseLines(lines[i + 1..]);
    if ParseLine(lines[i]).Some? && rest.Some? {
      assert done + ([ParseLine(lines[i]).value] + rest.value) == (done + [ParseLine(lines[i]).value]) + rest.value;
    }
  }

  method FromString(s: string) returns (records: Option<seq<Record>>)
    ensures records == ParseLines(Lines(s))
  {
    hide ParseLine, ParseLines, Lines;
    var parsed: seq<Record> := [];
    var lines := Lines(s);
    var i := 0;
    AfterNothing(ParseLines(lines));
    assert lines[0..] == lines;
    while i < |lines|
      invariant 0 <= i <= |lines|
      invariant ParseLines(lines) == After(parsed, ParseLines(lines[i..]))
    {
      ParseLinesStep(lines, i, parsed);
      match ParseLine(lines[i]) {
        case None => return None;
        case Some(r) => parsed := parsed + [r];
      }
      i := i + 1;
    }
    NoLinesLeft(lines, i, parsed);
    records := Some(parsed);
  }

  lemma AfterNothing(rest: Option<seq<Record>>)
    ensures After([], rest) == rest
  {
    if rest.Some? { assert [] + rest.value == rest.value; }
  }

  lemma NoLinesLeft(lines: seq<string>, i: nat, done: seq<Record>)
    requires i == |lines|
    ensures After(done, ParseLines(lines[i..])) == Some(done)
  {
    assert lines[i..] == [] && done + [] == done;
  }

  // ---- Round trip --------------------------------------------------------------------------------

  /** What can be told from a record alone about whether it survives. */
  predicate Survives(r: Record) {
    && (r.function_.Some? ==>
          r.function_.value != "" && '@' !in r.function_.value && '\n' !in r.function_.value)
    && '\n' !in r.file
    && NormalString(r.file) == r.file
  }

  lemma ParsePosition(r: Record)
    ensures SplitLast(Position(r), ':') == Some((r.file + ":" + Decimal(r.lineno as nat), Decimal(r.column as nat)))
    ensures SplitLast(r.file + ":" + Decimal(r.lineno as nat), ':') == Some((r.file, Decimal(r.lineno as nat)))
  {
    DecimalIsPlain(r.lineno as nat, ':');
    DecimalIsPlain(r.column as nat, ':');
    SplitAtLast(r.file, Decimal(r.lineno as nat), ':');
    SplitAtLast(r.file + ":" + Decimal(r.lineno as nat), Decimal(r.column as nat), ':');
  }

  /** A record without a newline reads back from its own line exactly when it survives. */
  lemma LineRoundTrip(r: Record)
    requires '\n' !in Display(r)
    ensures ParseLine(Display(r)) == Some(r) <==> Survives(r)
  {
    var name := if r.function_.Some? then r.function_.value else "";
    NoNewlineInside(r);
    if '@' !in name {
      SplitAtFirst(name, Position(r), '@');
      ParsePosition(r);
      ParseDecimal(r.lineno);
      ParseDecimal(r.column);
    } else {
      SplitStopsEarly(name, "@" + Position(r), '@');
      assert Display(r) == name + ("@" + Position(r));
    }
  }

  lemma NoNewlineInside(r: Record)
    ensures '\n' !in Display(r) <==> '\n' !in r.file && (r.function_.Some? ==> '\n' !in r.function_.value)
  {
    var name := if r.function_.Some? then r.function_.value else "";
    DecimalIsPlain(r.lineno as nat, '\n');
    DecimalIsPlain(r.column as nat, '\n');
    assert Display(r) == name + "@" + r.file + ":" + Decimal(r.lineno as nat) + ":" + Decimal(r.column as nat);
  }

  lemma {:induction false} SplitStopsEarly(a: string, b: string, sep: char)
    requires sep in a
    ensures SplitOnce(a + b, sep).Some? && |SplitOnce(a + b, sep).value.0| < |a|
  {
    assert (a + b)[0] == a[0] && (a + b)[1..] == a[1..] + b;
    if a[0] != sep {
      SplitStopsEarly(a[1..], b, sep);
    }
  }

  function Newlines(s: string): nat {
    if s == "" then 0 else (if s[0] == '\n' then 1 else 0) + Newlines(s[1..])
  }

  lemma {:induction false} SplitCounts(s: string)
    ensures |Split(s, '\n')| == 1 + Newlines(s)
  {
    if s != "" { SplitCounts(s[1..]); }
  }

  lemma {:induction false} NewlinesConcat(a: string, b: string)
    ensures Newlines(a + b) == Newlines(a) + Newlines(b)
  {
    if a == "" {
      assert a + b == b;
    } else {
      assert (a + b)[0] == a[0] && (a + b)[1..] == a[1..] + b;
      NewlinesConcat(a[1..], b);
    }
  }

  lemma {:induction false} NoNewlines(s: string)
    ensures Newlines(s) == 0 <==> '\n' !in s
  {
    if s != "" {
      NoNewlines(s[1..]);
      assert '\n' in s <==> s[0] == '\n' || '\n' in s[1..];
    }
  }

  lemma {:induction false} JoinCounts(parts: seq<string>)
    requires parts != []
    ensures Newlines(Join(parts, '\n')) >= |parts| - 1
    ensures Newlines(Join(parts, '\n')) == |parts| - 1 <==> forall i :: 0 <= i < |parts| ==> '\n' !in parts[i]
  {
    NoNewlines(parts[0]);
    if |parts| > 1 {
      JoinCounts(parts[1..]);
      NewlinesConcat(parts[0] + ['\n'], Join(parts[1..], '\n'));
      NewlinesConcat(parts[0], ['\n']);
      assert Newlines(['\n']) == 1;
      assert forall i :: 1 <= i < |parts| ==> parts[i] == parts[1..][i - 1];
    }
  }

  lemma DisplayEndsInDigit(r: Record)
    ensures Display(r) != "" && IsDigit(Display(r)[|Display(r)| - 1])
  {
    hide Decimal;
    var column := Decimal(r.column as nat);
    assert Display(r)[|Display(r)| - 1] == column[|column| - 1];
  }

  /** The last line of a printed trace ends in a digit. */
  lemma {:induction false} ShowEndsInDigit(records: seq<Record>)
    requires records != []
    ensures Show(records) != "" && IsDigit(Show(records)[|Show(records)| - 1])
  {
    hide Display;
    var lines := Displays(records);
    DisplayEndsInDigit(records[0]);
    if |records| > 1 {
      assert lines[1..] == Displays(records[1..]);
      ShowEndsInDigit(records[1..]);
    }
  }

  lemma {:induction false} SplitEnd(s: string, sep: char)
    requires s != "" && s[|s| - 1] != sep
    ensures var parts := Split(s, sep); parts[|parts| - 1] != ""
  {
    if |s| > 1 {
      SplitEnd(s[1..], sep);
    } else {
      assert s[1..] == "";
    }
  }

  lemma {:induction false} ParseLinesLength(lines: seq<string>)
    ensures ParseLines(lines).Some? ==> |ParseLines(lines).value| == |lines|
  {
    if lines != [] { ParseLinesLength(lines[1..]); }
  }

  lemma ParseLinesHead(r: Record, records: seq<Record>, line: string, lines: seq<string>)
    ensures ParseLines([line] + lines) == Some([r] + records) <==>
            ParseLine(line) == Some(r) && ParseLines(lines) == Some(records)
  {
    hide ParseLine;
    assert ([line] + lines)[1..] == lines;
    var first, rest := ParseLine(line), ParseLines(lines);
    if first.Some? && rest.Some? {
      var all := [first.value] + rest.value;
      assert all[0] == first.value && all[1..] == rest.value;
      assert ([r] + records)[0] == r && ([r] + records)[1..] == records;
    }
  }

  lemma {:induction false} DisplaysParse(records: seq<Record>)
    requires forall i :: 0 <= i < |records| ==> '\n' !in Display(records[i])
    ensures ParseLines(Displays(records)) == Some(records) <==> forall i :: 0 <= i < |records| ==> Survives(records[i])
  {
    hide ParseLine, Survives, Display;
    if records != [] {
      hide ParseLines;
      var rest := records[1..];
      assert Displays(records) == [Display(records[0])] + Displays(rest);
      LineRoundTrip(records[0]);
      DisplaysParse(rest);
      assert records == [records[0]] + rest;
      ParseLinesHead(records[0], rest, Display(records[0]), Displays(rest));
      assert forall i :: 1 <= i < |records| ==> records[i] == rest[i - 1];
      assert forall i :: 0 <= i < |rest| ==> rest[i] == records[i + 1];
    }
  }

  lemma LinesOfText(s: string)
    requires s != "" && s[|s| - 1] != '\n'
    ensures |Lines(s)| == 1 + Newlines(s)
    ensures (forall i :: 0 <= i < |Split(s, '\n')| - 1 ==> Trimmed(Split(s, '\n')[i]) == Split(s, '\n')[i]) ==>
              Lines(s) == Split(s, '\n')
  {
    hide Split, Newlines, Trimmed;
    SplitEnd(s, '\n');
    SplitCounts(s);
    var parts := Split(s, '\n');
    var n := |parts| - 1;
    assert Lines(s) == TrimmedAll(parts[..n]) + [parts[n]];
    if forall i :: 0 <= i < n ==> Trimmed(parts[i]) == parts[i] {
      assert TrimmedAll(parts[..n]) == parts[..n];
    }
  }

  lemma DisplayIsTrimmed(r: Record)
    ensures Trimmed(Display(r)) == Display(r)
  {
    hide Display, Decimal;
    DisplayEndsInDigit(r);
  }

  /** The lines of a printed trace are its records' lines, if none of them contains a newline. */
  lemma LinesOfShow(records: seq<Record>)
    requires records != []
    ensures |Lines(Show(records))| == 1 + Newlines(Show(records))
    ensures (forall i :: 0 <= i < |records| ==> '\n' !in Display(records[i])) ==>
              Lines(Show(records)) == Displays(records)
  {
    hide Lines, Newlines, Display, Trimmed, Split, Join;
    var s := Show(records);
    ShowEndsInDigit(records);
    LinesOfText(s);
    if forall i :: 0 <= i < |records| ==> '\n' !in Display(records[i]) {
      SplitJoin(Displays(records), '\n');
      forall i | 0 <= i < |records| ensures Trimmed(Displays(records)[i]) == Displays(records)[i] {
        DisplayIsTrimmed(records[i]);
      }
    }
  }

  /**
   Parsing a printed trace gives back its records if and only if every record survives: its function
   is absent or non-empty without `@` or newline, and its file is normalised, without a newline.
   The file may contain `:` and `@`, and the numbers are any u32.
   */
  lemma TraceRoundTrip(records: seq<Record>)
    ensures ParseLines(Lines(Show(records))) == Some(records) <==>
            forall i :: 0 <= i < |records| ==> Survives(records[i])
  {
    if records == [] {
      assert Split("", '\n') == [""];
    } else {
      LinesOfShow(records);
      JoinCounts(Displays(records));
      if forall i :: 0 <= i < |records| ==> '\n' !in Display(records[i]) {
        DisplaysParse(records);
      } else {
        var k :| 0 <= k < |records| && '\n' in Display(records[k]);
        assert '\n' in Displays(records)[k];
        NoNewlineInside(records[k]);
        ParseLinesLength(Lines(Show(records)));
      }
    }
  }

  // ---- What a line reads as ----------------------------------------------------------------------

  /** A line made of a name without `@`, any file and two numbers reads as them, the file in normal form. */
  lemma LineReads(name: string, file: string, lineno: u32, column: u32)
    requires '@' !in name
    ensures ParseLine(name + "@" + file + ":" + Decimal(lineno as nat) + ":" + Decimal(column as nat)) ==
            Some(Record(if name == "" then None else Some(name), NormalString(file), lineno, column))
  {
    hide Decimal, NormalString;
    var r := Record(None, file, lineno, column);
    SplitAtFirst(name, Position(r), '@');
    ParsePosition(r);
    ParseDecimal(lineno);
    ParseDecimal(column);
    assert name + "@" + Position(r) ==
           name + "@" + file + ":" + Decimal(lineno as nat) + ":" + Decimal(column as nat);
  }

  lemma {:induction false} SplitOnceFinds(s: string, sep: char)
    ensures match SplitOnce(s, sep)
            case None => sep !in s
            case Some((a, b)) => s == a + [sep] + b && sep !in a
  {
    if s != "" && s[0] != sep {
      SplitOnceFinds(s[1..], sep);
      assert s == [s[0]] + s[1..];
    } else if s != "" {
      assert s == [] + [sep] + s[1..];
    }
  }

  lemma {:induction false} SplitLastFinds(s: string, sep: char)
    ensures match SplitLast(s, sep)
            case None => sep !in s
            case Some((a, b)) => s == a + [sep] + b && sep !in b
  {
    if s != "" {
      var init := s[..|s| - 1];
      assert s == init + [s[|s| - 1]];
      if s[|s| - 1] != sep {
        SplitLastFinds(init, sep);
        match SplitLast(init, sep)
        case None =>
        case Some((a, b)) => assert s == a + [sep] + (b + [s[|s| - 1]]);
      }
    }
  }

  /** The line has the parts of a record: what comes before the first `@`, and two numbers at the end. */
  ghost predicate HasParts(line: string, name: string, file: string, lineno: string, column: string) {
    && line == name + "@" + file + ":" + lineno + ":" + column
    && '@' !in name && ':' !in lineno && ':' !in column
  }

  /** A line parses if and only if it has these parts and both numbers fit; anything else fails an `unwrap`. */
  lemma LineParsesIff(line: string)
    ensures ParseLine(line).Some? <==>
            exists name, file, lineno, column ::
              HasParts(line, name, file, lineno, column) && ParseU32(lineno).Some? && ParseU32(column).Some?
  {
    hide ParseU32, NormalString;
    if ParseLine(line).Some? {
      SplitOnceFinds(line, '@');
      var (name, position) := SplitOnce(line, '@').value;
      SplitLastFinds(position, ':');
      var (place, column) := SplitLast(position, ':').value;
      SplitLastFinds(place, ':');
      var (file, lineno) := SplitLast(place, ':').value;
      assert line == name + "@" + (file + ":" + lineno + ":" + column);
      assert HasParts(line, name, file, lineno, column);
    }
    if name, file, lineno, column :|
        HasParts(line, name, file, lineno, column) && ParseU32(lineno).Some? && ParseU32(column).Some?
    {
      PartsParse(line, name, file, lineno, column);
    }
  }

  lemma PartsParse(line: string, name: string, file: string, lineno: string, column: string)
    requires HasParts(line, name, file, lineno, column) && ParseU32(lineno).Some? && ParseU32(column).Some?
    ensures ParseLine(line) ==
            Some(Record(if name == "" then None else Some(name), NormalString(file),
                        ParseU32(lineno).value, ParseU32(column).value))
  {
    hide ParseU32, NormalString;
    var position := file + ":" + lineno + ":" + column;
    SplitAtFirst(name, position, '@');
    assert line == name + "@" + position;
    SplitAtLast(file + ":" + lineno, column, ':');
    assert position == (file + ":" + lineno) + ":" + column;
    SplitAtLast(file, lineno, ':');
  }
}
