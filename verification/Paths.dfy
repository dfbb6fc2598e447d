// Positions written after paths, and the spellings paths arrive in.

// Lines and columns, printed and read back.
module Positions {
  import opened Wrappers
  import opened Decimal

  const U32: nat := 0x1_0000_0000

  // What `str::parse::<u32>` reads: digits after an optional plus, in range.
  function ParseU32(s: string): Option<nat> {
    var digits := if s != "" && s[0] == '+' then s[1..] else s;
    match Read(digits)
    case Some(n) => if n < U32 then Some(n) else None
    case None => None
  }

  // A number is read exactly off its digits, with zeros or one plus in front, when
  // it fits in 32 bits.
  lemma NumbersAreRead(s: string, n: nat)
    ensures ParseU32(s) == Some(n) <==>
              n < 0x1_0000_0000 && exists k: nat :: s == Zeros(k) + Print(n) || s == "+" + (Zeros(k) + Print(n))
  {
    ReadIs(s, n);
    if s != "" {
      ReadIs(s[1..], n);
    }
    if k: nat :| s == Zeros(k) + Print(n) {
      DigitsAhead(k, n);
    }
    if k: nat :| s == "+" + (Zeros(k) + Print(n)) {
      assert s[1..] == Zeros(k) + Print(n);
    }
    if s != "" && s[0] == '+' && Read(s[1..]) == Some(n) {
      var k: nat :| s[1..] == Zeros(k) + Print(n);
      assert s == "+" + (Zeros(k) + Print(n));
    }
  }

  lemma DigitsAhead(k: nat, n: nat)
    ensures IsDigit((Zeros(k) + Print(n))[0])
  {
  }

  // The text before and after the first, or the last, of a character.
  function SplitOnce(s: string, c: char): (r: Option<(string, string)>)
    ensures r.Some? ==> s == r.value.0 + [c] + r.value.1 && c !in r.value.0
    ensures r.None? <==> c !in s
  {
    if s == "" then None
    else if s[0] == c then Some(("", s[1..]))
    else match SplitOnce(s[1..], c)
      case None => None
      case Some((head, tail)) => Some(([s[0]] + head, tail))
  }

  function SplitLast(s: string, c: char): (r: Option<(string, string)>)
    ensures r.Some? ==> s == r.value.0 + [c] + r.value.1 && c !in r.value.1
    ensures r.None? <==> c !in s
  {
    if s == "" then None
    else if s[|s| - 1] == c then Some((s[..|s| - 1], ""))
    else match SplitLast(s[..|s| - 1], c)
      case None => None
      case Some((head, tail)) => Some((head, tail + [s[|s| - 1]]))
  }

  function WithoutPrefix(s: string, prefix: string): string {
    if prefix <= s then s[|prefix|..] else s
  }

  // ===== Line ranges =====

  datatype LineRange = LineRange(start: nat, end: nat)

  function LineNumber(s: string): Option<nat> {
    match ParseU32(s)
    case Some(n) => if n == 0 then None else Some(n - 1)
    case None => None
  }

  // The two ends of a range, as written; a single line is both.
  function EndsOf(range: string): (string, string) {
    match SplitOnce(range, ':')
    case Some(ends) => ends
    case None =>
      match SplitOnce(range, '-')
      case Some((start, end)) => (start, WithoutPrefix(end, "L"))
      case None => (range, range)
  }

  function ReadEnds(ends: (string, string)): Option<LineRange> {
    match LineNumber(ends.0)
    case None => None
    case Some(start) =>
      match LineNumber(ends.1)
      case None => None
      case Some(end) => Some(LineRange(start, end))
  }

  function ParseLineRange(fragment: string): Option<LineRange> {
    ReadEnds(EndsOf(WithoutPrefix(fragment, "L")))
  }

  function PrintLineRange(r: LineRange): string {
    "L" + Print(r.start + 1) + ":" + Print(r.end + 1)
  }

  // ----- Reading back what was printed -----

  lemma PrintedIsDigits(n: nat)
    ensures forall c | c in Print(n) :: IsDigit(c)
  {
  }

  lemma ParsePrinted(n: nat)
    ensures ParseU32(Print(n)) == if n < U32 then Some(n) else None
  {
    ReadPrinted(n);
    assert IsDigit(Print(n)[0]);
  }

  lemma {:induction false} SplitOnceAt(head: string, c: char, tail: string)
    requires c !in head
    ensures SplitOnce(head + [c] + tail, c) == Some((head, tail))
  {
    var s := head + [c] + tail;
    if head == "" {
      assert s == [c] + tail;
    } else {
      assert s[1..] == head[1..] + [c] + tail;
      SplitOnceAt(head[1..], c, tail);
      assert [head[0]] + head[1..] == head;
    }
  }

  lemma {:induction false} SplitLastAt(head: string, c: char, tail: string)
    requires c !in tail
    ensures SplitLast(head + [c] + tail, c) == Some((head, tail))
  {
    var s := head + [c] + tail;
    if tail == "" {
      assert s == head + [c] && s[..|s| - 1] == head;
    } else {
      var front := tail[..|tail| - 1];
      assert s[..|s| - 1] == head + [c] + front;
      SplitLastAt(head, c, front);
      assert front + [tail[|tail| - 1]] == tail;
    }
  }

  lemma EndsReadBack(r: LineRange)
    ensures ReadEnds((Print(r.start + 1), Print(r.end + 1))) == Some(r) <==> r.start + 1 < U32 && r.end + 1 < U32
  {
    ParsePrinted(r.start + 1);
    ParsePrinted(r.end + 1);
  }

  lemma PrefixComesOff(range: string)
    ensures WithoutPrefix("L" + range, "L") == range
  {
  }

  // A range of lines printed as a fragment reads back as itself exactly when
  // both its lines can be counted from one in 32 bits.
  lemma LineRangeRoundTrip(r: LineRange)
    ensures ParseLineRange(PrintLineRange(r)) == Some(r) <==> r.start + 1 < U32 && r.end + 1 < U32
  {
    var start, end := Print(r.start + 1), Print(r.end + 1);
    PrintedIsDigits(r.start + 1);
    assert PrintLineRange(r) == "L" + (start + [':'] + end);
    PrefixComesOff(start + [':'] + end);
    SplitOnceAt(start, ':', end);
    EndsReadBack(r);
  }

  predicate AllDigits(s: string) {
    s != "" && forall c | c in s :: IsDigit(c)
  }

  lemma DashedEnds(start: string, end: string)
    requires AllDigits(start) && AllDigits(end)
    ensures EndsOf(start + "-" + end) == (start, end)
    ensures EndsOf(start + "-" + ("L" + end)) == (start, end)
    ensures EndsOf(start) == (start, start)
  {
    SplitOnceAt(start, '-', end);
    SplitOnceAt(start, '-', "L" + end);
    PrefixComesOff(end);
    assert IsDigit(end[0]);
    assert SplitOnce(start + "-" + end, ':').None?;
    assert SplitOnce(start + "-" + ("L" + end), ':').None?;
  }

  // The other spellings name the same lines.
  lemma OtherSpellings(r: LineRange)
    requires r.start + 1 < U32 && r.end + 1 < U32
    ensures ParseLineRange("L" + (Print(r.start + 1) + "-" + Print(r.end + 1))) == Some(r)
    ensures ParseLineRange("L" + (Print(r.start + 1) + "-" + ("L" + Print(r.end + 1)))) == Some(r)
    ensures ParseLineRange("L" + Print(r.start + 1)) == Some(LineRange(r.start, r.start))
  {
    var start, end := Print(r.start + 1), Print(r.end + 1);
    PrintedIsDigits(r.start + 1);
    PrintedIsDigits(r.end + 1);
    DashedEnds(start, end);
    PrefixComesOff(start + "-" + end);
    PrefixComesOff(start + "-" + ("L" + end));
    PrefixComesOff(start);
    EndsReadBack(r);
    EndsReadBack(LineRange(r.start, r.start));
  }

  // ===== Paths with positions =====

  datatype PathWithPosition = PathWithPosition(path: string, row: Option<nat>, column: Option<nat>)

  function ParsePath(input: string): PathWithPosition {
    match SplitLast(input, ':')
    case None => PathWithPosition(input, None, None)
    case Some((head, last)) =>
      match ParseU32(last)
      case None => PathWithPosition(input, None, None)
      case Some(last) =>
        match SplitLast(head, ':')
        case None => PathWithPosition(head, Some(last), None)
        case Some((rest, middle)) =>
          match ParseU32(middle)
          case Some(middle) => PathWithPosition(rest, Some(middle), Some(last))
          case None => PathWithPosition(head, Some(last), None)
  }

  // A path that would itself be read as ending in a position.
  predicate EndsInNumber(path: string) {
    var split := SplitLast(path, ':');
    split.Some? && ParseU32(split.value.1).Some?
  }

  lemma NumberIsNotSplit(n: nat)
    requires n < U32
    ensures ':' !in Print(n) && ParseU32(Print(n)) == Some(n)
  {
    PrintedIsDigits(n);
    ParsePrinted(n);
  }

  // A row and a column after any path at all come off it as they were put on.
  lemma RowAndColumnComeOff(path: string, row: nat, column: nat)
    requires row < U32 && column < U32
    ensures ParsePath(path + ":" + Print(row) + ":" + Print(column)) == PathWithPosition(path, Some(row), Some(column))
  {
    NumberIsNotSplit(row);
    NumberIsNotSplit(column);
    SplitLastAt(path + [':'] + Print(row), ':', Print(column));
    SplitLastAt(path, ':', Print(row));
  }

  // A row alone, or nothing, comes off as it was put on exactly when the path
  // does not already end in a number.
  lemma RowComesOff(path: string, row: nat)
    requires row < U32
    ensures ParsePath(path + ":" + Print(row)) == PathWithPosition(path, Some(row), None) <==> !EndsInNumber(path)
    ensures ParsePath(path) == PathWithPosition(path, None, None) <==> !EndsInNumber(path)
  {
    NumberIsNotSplit(row);
    SplitLastAt(path, ':', Print(row));
  }

  // What the parts were written as; a position absent was not written at all.
  predicate Spells(input: string, p: PathWithPosition, row: string, column: string) {
    match p
    case PathWithPosition(path, None, None) => input == path && row == "" && column == ""
    case PathWithPosition(path, Some(r), None) => input == path + ":" + row && ParseU32(row) == Some(r) && column == ""
    case PathWithPosition(path, Some(r), Some(c)) =>
      input == path + ":" + row + ":" + column && ParseU32(row) == Some(r) && ParseU32(column) == Some(c)
    case PathWithPosition(_, None, Some(_)) => false
  }

  // Nothing of the input is lost or made up.
  lemma NothingIsLost(input: string) returns (row: string, column: string)
    ensures Spells(input, ParsePath(input), row, column)
  {
    row, column := "", "";
    match SplitLast(input, ':')
    case None =>
    case Some((head, last)) =>
      if ParseU32(last).Some? {
        match SplitLast(head, ':')
        case None => row := last;
        case Some((rest, middle)) =>
          if ParseU32(middle).Some? {
            row, column := middle, last;
          } else {
            row := last;
          }
      }
  }

  // ===== Mentions =====

  datatype Mention = File(path: string) | Selection(path: string, lines: LineRange, column: Option<nat>)

  function Placed(p: PathWithPosition): Option<Mention> {
    if p.row.None? then Some(File(p.path))
    else if p.row.value == 0 then None
    else
      Some(Selection(p.path, LineRange(p.row.value - 1, p.row.value - 1),
                     match p.column
                     case None => None
                     case Some(c) => Some(if c == 0 then 0 else c - 1)))
  }

  function PathMention(path: string, fragment: Option<string>): Option<Mention> {
    var range := if fragment.Some? then ParseLineRange(fragment.value) else None;
    if range.Some? then Some(Selection(path, range.value, None)) else Placed(ParsePath(path))
  }

  lemma PlacedAt(input: string, p: PathWithPosition)
    requires ParsePath(input) == p
    ensures PathMention(input, None) == Placed(p)
  {
  }

  lemma PlacedBack(path: string, line: nat, column: nat)
    ensures Placed(PathWithPosition(path, Some(line + 1), Some(column + 1)))
         == Some(Selection(path, LineRange(line, line), Some(column)))
  {
  }

  // A place in a file, written after its path, is the place that is read.
  lemma PlaceRoundTrip(path: string, line: nat, column: nat)
    requires line + 1 < U32 && column + 1 < U32
    ensures PathMention(path + ":" + Print(line + 1) + ":" + Print(column + 1), None)
         == Some(Selection(path, LineRange(line, line), Some(column)))
  {
    RowAndColumnComeOff(path, line + 1, column + 1);
    PlacedAt(path + ":" + Print(line + 1) + ":" + Print(column + 1),
             PathWithPosition(path, Some(line + 1), Some(column + 1)));
    PlacedBack(path, line, column);
  }

  // What a row and a column after a path come to: both count from one, a row of
  // none is refused, and a column of none is the first.
  lemma PlacesAreRead(path: string, row: nat, column: nat)
    requires row < U32 && column < U32
    ensures PathMention(path + ":" + Print(row) + ":" + Print(column), None) ==
            if row == 0 then None
            else Some(Selection(path, LineRange(row - 1, row - 1), Some(if column <= 1 then 0 else column - 1)))
  {
    RowAndColumnComeOff(path, row, column);
    PlacedAt(path + ":" + Print(row) + ":" + Print(column), PathWithPosition(path, Some(row), Some(column)));
    PlacedAs(path, row, column);
  }

  lemma PlacedAs(path: string, row: nat, column: nat)
    ensures Placed(PathWithPosition(path, Some(row), Some(column))) ==
            if row == 0 then None
            else Some(Selection(path, LineRange(row - 1, row - 1), Some(if column <= 1 then 0 else column - 1)))
  {
  }

  lemma RowsAreRead(path: string, row: nat)
    requires row < U32 && !EndsInNumber(path)
    ensures PathMention(path + ":" + Print(row), None) ==
            if row == 0 then None else Some(Selection(path, LineRange(row - 1, row - 1), None))
  {
    RowComesOff(path, row);
  }

  // A range in a fragment wins, and leaves the path exactly as written.
  lemma FragmentRoundTrip(path: string, r: LineRange)
    requires r.start + 1 < U32 && r.end + 1 < U32
    ensures PathMention(path, Some(PrintLineRange(r))) == Some(Selection(path, r, None))
  {
    LineRangeRoundTrip(r);
  }

  // A path ending in a number is one such, and is not read back as itself.
  lemma NumberedPathIsCut(row: nat)
    requires row < U32
    ensures EndsInNumber("a:7") && ParsePath("a:7") == PathWithPosition("a", Some(7), None)
    ensures ParsePath("a:7" + ":" + Print(row)) == PathWithPosition("a", Some(7), Some(row))
    ensures PathMention("a:7", None) == Some(Selection("a", LineRange(6, 6), None))
  {
    assert Print(7) == "7";
    assert "a:7" == "a" + [':'] + "7" == "a" + ":" + Print(7);
    NumberIsNotSplit(7);
    SplitLastAt("a", ':', "7");
    RowAndColumnComeOff("a", 7, row);
  }

  // ----- Selections in URLs -----

  // The `column` parameter a selection is written with, beside its fragment.
  function ColumnParameter(column: Option<nat>): Option<string> {
    match column
    case None => None
    case Some(c) => Some(Print(c + 1))
  }

  function ParseColumn(parameter: Option<string>): Option<nat> {
    match parameter
    case None => None
    case Some(text) => LineNumber(text)
  }

  // A file's selection is read whatever its fragment holds; a buffer's is not.
  function FileSelection(fragment: string, parameter: Option<string>): (LineRange, Option<nat>) {
    (match ParseLineRange(fragment)
     case Some(lines) => lines
     case None => LineRange(1, 1),
     ParseColumn(parameter))
  }

  function BufferSelection(fragment: string, parameter: Option<string>): Option<(LineRange, Option<nat>)> {
    match ParseLineRange(fragment)
    case None => None
    case Some(lines) => Some((lines, ParseColumn(parameter)))
  }

  // Either way a selection is read back as it was written exactly when its lines
  // and its column, counted from one, fit in 32 bits.
  lemma SelectionRoundTrip(lines: LineRange, column: Option<nat>)
    ensures var fits := lines.start + 1 < U32 && lines.end + 1 < U32 && (column.Some? ==> column.value + 1 < U32);
            var fragment, parameter := PrintLineRange(lines), ColumnParameter(column);
            && (FileSelection(fragment, parameter) == (lines, column) <==> fits)
            && (BufferSelection(fragment, parameter) == Some((lines, column)) <==> fits)
  {
    LineRangeRoundTrip(lines);
    FragmentRefused(lines);
    if column.Some? {
      ParsePrinted(column.value + 1);
    }
  }

  // A file's selection whose fragment is not a range is of the second line, and
  // with a column that does not read, or is none, of no column.
  lemma UnreadSelection(fragment: string, column: string)
    requires fragment == "" || (fragment[0] != 'L' && fragment[0] != '+' && !IsDigit(fragment[0]))
    ensures BufferSelection(fragment, Some(column)).None?
    ensures FileSelection(fragment, Some(column)).0 == LineRange(1, 1)
    ensures FileSelection(fragment, Some("0")).1.None? && FileSelection(fragment, None).1.None?
    ensures FileSelection(fragment, Some("x")).1.None?
  {
    UnreadRange(fragment);
    ParsePrinted(0);
    assert Print(0) == "0";
    assert Read("x").None?;
  }

  lemma UnreadRange(fragment: string)
    requires fragment == "" || (fragment[0] != 'L' && fragment[0] != '+' && !IsDigit(fragment[0]))
    ensures ParseLineRange(fragment).None?
  {
    var start := EndsOf(fragment).0;
    assert start == "" || start[0] == fragment[0] by {
      if SplitOnce(fragment, ':').Some? {
        assert fragment == SplitOnce(fragment, ':').value.0 + [':'] + SplitOnce(fragment, ':').value.1;
      } else if SplitOnce(fragment, '-').Some? {
        assert fragment == SplitOnce(fragment, '-').value.0 + ['-'] + SplitOnce(fragment, '-').value.1;
      }
    }
    if start != "" {
      DigitsOnly(start);
    }
  }

  lemma {:induction false} DigitsOnly(s: string)
    requires s != "" && !IsDigit(s[0])
    ensures Read(s).None?
  {
    if |s| > 1 {
      DigitsOnly(s[..|s| - 1]);
    }
  }

  // A fragment out of range is refused, and so would be read as the second line.
  lemma FragmentRefused(r: LineRange)
    ensures ParseLineRange(PrintLineRange(r)).None? <==> r.start + 1 >= U32 || r.end + 1 >= U32
  {
    var start, end := Print(r.start + 1), Print(r.end + 1);
    PrintedIsDigits(r.start + 1);
    assert PrintLineRange(r) == "L" + (start + [':'] + end);
    PrefixComesOff(start + [':'] + end);
    SplitOnceAt(start, ':', end);
    ParsePrinted(r.start + 1);
    ParsePrinted(r.end + 1);
  }

  // With no fragment that reads as a range, a path is a plain file exactly when
  // it does not end in a number, and refused exactly when its row is zero.
  lemma PlainPaths(path: string, fragment: Option<string>)
    requires fragment.Some? ==> ParseLineRange(fragment.value).None?
    ensures PathMention(path, fragment) == Some(File(path)) <==> !EndsInNumber(path)
    ensures PathMention(path, fragment).None? <==> ParsePath(path).row == Some(0)
  {
    RowComesOff(path, 0);
  }
}

// Percent escapes in paths, byte by byte.
module PathEscapes {
  import opened Wrappers

  type Byte = b: int | 0 <= b < 256 witness 0

  const PERCENT: Byte := 37
  const SLASH: Byte := 47
  const BACKSLASH: Byte := 92

  function HexDigit(b: Byte): (d: Option<nat>)
    ensures d.Some? ==> d.value < 16
  {
    if 48 <= b <= 57 then Some(b - 48)
    else if 97 <= b <= 102 then Some(b - 97 + 10)
    else if 65 <= b <= 70 then Some(b - 65 + 10)
    else None
  }

  predicate IsSeparator(b: Byte) {
    b == SLASH || b == BACKSLASH
  }

  // The byte an escape at the front stands for, unless it is a separator.
  function Escaped(s: seq<Byte>): (b: Option<Byte>)
    ensures b.Some? ==> |s| >= 3 && !IsSeparator(b.value)
  {
    if |s| >= 3 && s[0] == PERCENT && HexDigit(s[1]).Some? && HexDigit(s[2]).Some? then
      var b := 16 * HexDigit(s[1]).value + HexDigit(s[2]).value;
      if IsSeparator(b) then None else Some(b)
    else None
  }

  function Decoded(s: seq<Byte>): seq<Byte>
    decreases |s|
  {
    if s == [] then []
    else if Escaped(s).Some? then [Escaped(s).value] + Decoded(s[3..])
    else [s[0]] + Decoded(s[1..])
  }

  // The bytes up to `index` decode to these, and the rest to the rest.
  predicate Underway(input: seq<Byte>, index: nat, decoded: seq<Byte>) {
    index <= |input| && decoded + Decoded(input[index..]) == Decoded(input)
  }

  lemma OneOn(input: seq<Byte>, index: nat, decoded: seq<Byte>)
    requires index < |input| && Underway(input, index, decoded)
    ensures match Escaped(input[index..])
            case Some(b) => Underway(input, index + 3, decoded + [b])
            case None => Underway(input, index + 1, decoded + [input[index]])
  {
    var s := input[index..];
    match Escaped(s)
    case Some(b) =>
      assert s[3..] == input[index + 3..];
      assert decoded + ([b] + Decoded(s[3..])) == (decoded + [b]) + Decoded(s[3..]);
    case None =>
      assert s[1..] == input[index + 1..];
      assert decoded + ([s[0]] + Decoded(s[1..])) == (decoded + [s[0]]) + Decoded(s[1..]);
  }

  lemma AllOn(input: seq<Byte>, decoded: seq<Byte>)
    requires Underway(input, |input|, decoded)
    ensures decoded == Decoded(input)
  {
    assert decoded + [] == decoded;
  }

  // `None` when the input is given back untouched.
  method DecodePathEscapes(input: seq<Byte>, isText: seq<Byte> -> bool) returns (owned: Option<seq<Byte>>)
    ensures owned == if Decoded(input) != input && isText(Decoded(input)) then Some(Decoded(input)) else None
  {
    if PERCENT !in input {
      NoEscapes(input);
      return None;
    }
    var decoded: seq<Byte> := [];
    var index: nat := 0;
    assert input[0..] == input && [] + Decoded(input) == Decoded(input);
    while index < |input|
      invariant Underway(input, index, decoded)
    {
      OneOn(input, index, decoded);
      var b := Escaped(input[index..]);
      if b.Some? {
        decoded := decoded + [b.value];
        index := index + 3;
        continue;
      }
      decoded := decoded + [input[index]];
      index := index + 1;
    }
    AllOn(input, decoded);
    if decoded == input {
      return None;
    }
    if isText(decoded) {
      return Some(decoded);
    } else {
      return None;
    }
  }

  lemma {:induction false} NoEscapes(s: seq<Byte>)
    requires PERCENT !in s
    ensures Decoded(s) == s
  {
    if s != [] {
      NoEscapes(s[1..]);
    }
  }

  // ----- Writing escapes -----

  // The digit for a number below sixteen, in either case.
  function Digit(n: nat, upper: bool): Byte
    requires n < 16
  {
    if n < 10 then 48 + n else if upper then 65 + (n - 10) else 97 + (n - 10)
  }

  function Percent(b: Byte, high: bool, low: bool): seq<Byte> {
    [37, Digit(b / 16, high), Digit(b % 16, low)]
  }

  // A path as somebody may write it, byte by byte.
  datatype Piece = Plain(b: Byte) | Escape(b: Byte, high: bool, low: bool)

  function Spelt(p: Piece): seq<Byte> {
    match p
    case Plain(b) => [b]
    case Escape(b, high, low) => Percent(b, high, low)
  }

  function Written(pieces: seq<Piece>): seq<Byte> {
    if pieces == [] then [] else Spelt(pieces[0]) + Written(pieces[1..])
  }

  // What it stands for: a slash or a backslash stays as it was spelt.
  function Meant(pieces: seq<Piece>): seq<Byte> {
    if pieces == [] then []
    else (if pieces[0].b == 47 || pieces[0].b == 92 then Spelt(pieces[0]) else [pieces[0].b]) + Meant(pieces[1..])
  }

  lemma DigitRead(n: nat, upper: bool)
    requires n < 16
    ensures HexDigit(Digit(n, upper)) == Some(n) && Digit(n, upper) != 37
  {
  }

  lemma PlainStays(b: Byte, rest: seq<Byte>)
    requires b != 37
    ensures Decoded([b] + rest) == [b] + Decoded(rest)
  {
    assert ([b] + rest)[1..] == rest;
  }

  // An escape decodes to its byte,
  lemma EscapeDecodes(b: Byte, high: bool, low: bool, rest: seq<Byte>)
    requires b != 47 && b != 92
    ensures Decoded(Percent(b, high, low) + rest) == [b] + Decoded(rest)
  {
    var s := Percent(b, high, low) + rest;
    DigitRead(b / 16, high);
    DigitRead(b % 16, low);
    assert s[3..] == rest && s[1] == Digit(b / 16, high) && s[2] == Digit(b % 16, low);
  }

  // unless that is a separator, which stays escaped.
  lemma SeparatorStays(b: Byte, high: bool, low: bool, rest: seq<Byte>)
    requires b == 47 || b == 92
    ensures Decoded(Percent(b, high, low) + rest) == Percent(b, high, low) + Decoded(rest)
  {
    var d, e := Digit(b / 16, high), Digit(b % 16, low);
    var s := Percent(b, high, low) + rest;
    DigitRead(b / 16, high);
    DigitRead(b % 16, low);
    assert s[1] == d && s[2] == e;
    assert s[1..] == [d] + ([e] + rest);
    PlainStays(d, [e] + rest);
    PlainStays(e, rest);
    assert Percent(b, high, low) + Decoded(rest) == [37] + ([d] + ([e] + Decoded(rest)));
  }

  // A percent sign that two hex digits do not follow is itself.
  lemma LonePercentStays(rest: seq<Byte>)
    requires |rest| < 2 || !(48 <= rest[0] <= 57 || 65 <= rest[0] <= 70 || 97 <= rest[0] <= 102)
             || !(48 <= rest[1] <= 57 || 65 <= rest[1] <= 70 || 97 <= rest[1] <= 102)
    ensures Decoded([37] + rest) == [37] + Decoded(rest)
  {
    assert ([37] + rest)[1..] == rest;
    if |rest| >= 2 {
      assert ([37] + rest)[1] == rest[0] && ([37] + rest)[2] == rest[1];
    }
  }

  // However a path is spelt, decoding it gives what it stands for.
  lemma {:induction false} WrittenDecodes(pieces: seq<Piece>)
    requires forall p | p in pieces :: p.Plain? ==> p.b != 37
    ensures Decoded(Written(pieces)) == Meant(pieces)
  {
    if pieces != [] {
      var p, rest := pieces[0], Written(pieces[1..]);
      WrittenDecodes(pieces[1..]);
      match p
      case Plain(b) => PlainStays(b, rest);
      case Escape(b, high, low) =>
        if b == 47 || b == 92 {
          SeparatorStays(b, high, low, rest);
        } else {
          EscapeDecodes(b, high, low, rest);
        }
    }
  }

  // ----- Components -----

  // A path cut at its separators: one component more than there are separators.
  datatype Cut = Cut(components: seq<seq<Byte>>, separators: seq<Byte>)

  function CutUp(s: seq<Byte>): (c: Cut)
    ensures c.components != [] && |c.components| == |c.separators| + 1
  {
    if s == [] then Cut([[]], [])
    else
      var rest := CutUp(s[1..]);
      if IsSeparator(s[0]) then Cut([[]] + rest.components, [s[0]] + rest.separators)
      else Cut([[s[0]] + rest.components[0]] + rest.components[1..], rest.separators)
  }

  function EachDecoded(components: seq<seq<Byte>>): seq<seq<Byte>> {
    if components == [] then [] else [Decoded(components[0])] + EachDecoded(components[1..])
  }

  lemma EscapeStaysInside(head: seq<Byte>, separator: Byte, tail: seq<Byte>)
    requires IsSeparator(separator) && head != []
    ensures Escaped(head + [separator] + tail) == Escaped(head)
  {
    var s := head + [separator] + tail;
    assert |head| < 3 ==> s[|head|] == separator && HexDigit(separator).None?;
  }

  // An escape never reaches across a separator.
  lemma {:induction false} DecodedAround(head: seq<Byte>, separator: Byte, tail: seq<Byte>)
    requires IsSeparator(separator)
    ensures Decoded(head + [separator] + tail) == Decoded(head) + [separator] + Decoded(tail)
    decreases |head|
  {
    var s := head + [separator] + tail;
    if head == [] {
      assert s == [separator] + tail && s[1..] == tail;
    } else {
      EscapeStaysInside(head, separator, tail);
      var n := if Escaped(head).Some? then 3 else 1;
      assert s[n..] == head[n..] + [separator] + tail;
      DecodedAround(head[n..], separator, tail);
    }
  }

  predicate NoSeparator(s: seq<Byte>) {
    forall b | b in s :: !IsSeparator(b)
  }

  lemma {:induction false} DecodedHasNoSeparator(s: seq<Byte>)
    requires NoSeparator(s)
    ensures NoSeparator(Decoded(s))
    decreases |s|
  {
    if s != [] {
      DecodedHasNoSeparator(if Escaped(s).Some? then s[3..] else s[1..]);
    }
  }

  lemma {:induction false} CutOne(s: seq<Byte>)
    requires NoSeparator(s)
    ensures CutUp(s) == Cut([s], [])
  {
    if s != [] {
      CutOne(s[1..]);
      assert [s[0]] + s[1..] == s;
    }
  }

  lemma {:induction false} CutFirst(head: seq<Byte>, separator: Byte, tail: seq<Byte>)
    requires NoSeparator(head) && IsSeparator(separator)
    ensures CutUp(head + [separator] + tail)
            == Cut([head] + CutUp(tail).components, [separator] + CutUp(tail).separators)
  {
    var s := head + [separator] + tail;
    if head == [] {
      assert s == [separator] + tail && s[1..] == tail;
    } else {
      assert s[1..] == head[1..] + [separator] + tail;
      CutFirst(head[1..], separator, tail);
      assert [head[0]] + head[1..] == head;
    }
  }

  lemma {:induction false} FirstComponent(s: seq<Byte>) returns (head: seq<Byte>, tail: Option<(Byte, seq<Byte>)>)
    ensures NoSeparator(head)
    ensures tail.None? ==> s == head
    ensures tail.Some? ==> IsSeparator(tail.value.0) && s == head + [tail.value.0] + tail.value.1
  {
    if s == [] {
      head, tail := [], None;
    } else if IsSeparator(s[0]) {
      head, tail := [], Some((s[0], s[1..]));
    } else {
      head, tail := FirstComponent(s[1..]);
      head := [s[0]] + head;
    }
  }

  // Decoding keeps every separator where it is and decodes each component by
  // itself, so it cannot change which directories a path goes through.
  lemma {:induction false} DecodesByComponent(s: seq<Byte>)
    ensures CutUp(Decoded(s)) == Cut(EachDecoded(CutUp(s).components), CutUp(s).separators)
    decreases |s|
  {
    var head, tail := FirstComponent(s);
    DecodedHasNoSeparator(head);
    match tail
    case None =>
      CutOne(s);
      CutOne(Decoded(s));
    case Some((separator, rest)) =>
      DecodesByComponent(rest);
      DecodedAround(head, separator, rest);
      CutFirst(head, separator, rest);
      CutFirst(Decoded(head), separator, Decoded(rest));
  }
}

// Native spellings of Windows paths.
module WindowsPaths {
  import opened Wrappers

  predicate IsLower(c: char) { 'a' <= c <= 'z' }
  predicate IsUpper(c: char) { 'A' <= c <= 'Z' }
  predicate IsLetter(c: char) { IsLower(c) || IsUpper(c) }
  predicate IsSlash(c: char) { c == '/' || c == '\\' }

  function Upper(c: char): (u: char)
    ensures IsLetter(c) ==> IsUpper(u)
  {
    if IsLower(c) then 'A' + (c - 'a') else c
  }

  function Backslashed(s: string): (r: string)
    ensures |r| == |s| && '/' !in r && forall i | 0 <= i < |s| :: r[i] == if s[i] == '/' then '\\' else s[i]
  {
    if s == "" then "" else [if s[0] == '/' then '\\' else s[0]] + Backslashed(s[1..])
  }

  function JoinDrive(drive: char, rest: string): string {
    [Upper(drive)] + ":\\" + Backslashed(rest)
  }

  predicate HasDrive(path: string) {
    |path| >= 2 && IsLetter(path[0]) && path[1] == ':'
  }

  function ToNative(path: string): Option<string> {
    if |path| >= 4 && path[0] == '/' && IsLetter(path[1]) && path[2] == ':' && IsSlash(path[3]) then
      Some(JoinDrive(path[1], path[4..]))
    else if |path| >= 3 && path[0] == '/' && IsLower(path[1]) && IsSlash(path[2]) then
      Some(JoinDrive(path[1], path[3..]))
    else if HasDrive(path) then
      if IsUpper(path[0]) && '/' !in path then None else Some([Upper(path[0])] + ":" + Backslashed(path[2..]))
    else if '/' in path then Some(Backslashed(path))
    else None
  }

  // The path a mention is compared by.
  function Native(path: string): string {
    match ToNative(path)
    case Some(native) => native
    case None => path
  }

  predicate IsAbsolute(path: string) {
    (path != "" && IsSlash(path[0])) || HasDrive(path)
  }

  // A path with each slash turned.
  function Turned(s: string): string {
    seq(|s|, i requires 0 <= i < |s| => if s[i] == '/' then '\\' else s[i])
  }

  lemma {:induction false} BackslashedIs(s: string)
    ensures Backslashed(s) == Turned(s)
  {
  }

  // The k-th letter, in either case.
  function Letter(k: nat, upper: bool): char
    requires k < 26
  {
    if upper then 'A' + k as char else 'a' + k as char
  }

  // A drive after a slash, with or without its colon, or with none before it, is
  // named by its capital and a colon, and all that follows has its slashes turned.
  lemma MountedDrive(k: nat, upper: bool, slash: char, rest: string)
    requires k < 26 && (slash == '/' || slash == '\\')
    ensures Native(['/', Letter(k, upper), ':', slash] + rest) == [Letter(k, true), ':', '\\'] + Turned(rest)
  {
    var path := ['/', Letter(k, upper), ':', slash] + rest;
    assert path[4..] == rest;
    BackslashedIs(rest);
    CapitalOf(k, upper);
  }

  lemma BareDrive(k: nat, slash: char, rest: string)
    requires k < 26 && (slash == '/' || slash == '\\')
    ensures Native(['/', Letter(k, false), slash] + rest) == [Letter(k, true), ':', '\\'] + Turned(rest)
  {
    var path := ['/', Letter(k, false), slash] + rest;
    assert path[3..] == rest && path[2] == slash;
    BackslashedIs(rest);
    CapitalOf(k, false);
  }

  lemma NamedDrive(k: nat, upper: bool, rest: string)
    requires k < 26
    ensures Native([Letter(k, upper), ':'] + rest) == [Letter(k, true), ':'] + Turned(rest)
  {
    var path := [Letter(k, upper), ':'] + rest;
    assert path[2..] == rest && path[0] == Letter(k, upper);
    BackslashedIs(rest);
    CapitalOf(k, upper);
    if upper && '/' !in path {
      assert forall i | 0 <= i < |rest| :: rest[i] == path[i + 2];
      assert Turned(rest) == rest;
    }
  }

  lemma CapitalOf(k: nat, upper: bool)
    requires k < 26
    ensures Upper(Letter(k, upper)) == Letter(k, true) && IsLetter(Letter(k, upper))
    ensures IsUpper(Letter(k, upper)) <==> upper
    ensures IsLower(Letter(k, upper)) <==> !upper
  {
  }

  lemma LettersAre(c: char)
    ensures IsUpper(c) <==> exists k | 0 <= k < 26 :: c == Letter(k, true)
    ensures IsLower(c) <==> exists k | 0 <= k < 26 :: c == Letter(k, false)
  {
    if IsUpper(c) {
      assert c == Letter((c - 'A') as nat, true);
    } else if IsLower(c) {
      assert c == Letter((c - 'a') as nat, false);
    }
  }

  // A path is absolute exactly when it opens with a slash of either kind or with
  // the name of a drive.
  lemma AbsoluteIs(path: string)
    ensures IsAbsolute(path) <==>
            path != "" &&
            (path[0] == '/' || path[0] == '\\' ||
             (|path| > 1 && path[1] == ':' && exists k, upper | 0 <= k < 26 :: path[0] == Letter(k, upper)))
  {
    if path != "" {
      LettersAre(path[0]);
    }
  }

  // Any other path only has its slashes turned.
  lemma OthersAreTurned(path: string)
    requires !(|path| >= 2 && IsLetter(path[0]) && path[1] == ':')
    requires !(|path| >= 4 && path[0] == '/' && IsLetter(path[1]) && path[2] == ':'
             && (path[3] == '/' || path[3] == '\\'))
    requires !(|path| >= 3 && path[0] == '/' && IsLower(path[1]) && (path[2] == '/' || path[2] == '\\'))
    ensures Native(path) == Turned(path)
  {
    BackslashedIs(path);
    if '/' !in path {
      assert Turned(path) == path;
    }
  }

  // A path needs rewriting exactly when it holds a forward slash or names its
  // drive in lower case; rewritten, it has neither, stays as absolute as it
  // was, and needs no rewriting again.
  lemma NativeIsFixed(path: string)
    ensures ToNative(path).None? <==> '/' !in path && (HasDrive(path) ==> IsUpper(path[0]))
    ensures '/' !in Native(path) && (HasDrive(Native(path)) ==> IsUpper(Native(path)[0]))
    ensures ToNative(Native(path)).None? && Native(Native(path)) == Native(path)
    ensures IsAbsolute(Native(path)) <==> IsAbsolute(path)
  {
  }
}
