// The hex dump of the artifact preview, sixteen bytes to a line.
module HexDump {
  import opened Text

  const DIGITS := "0123456789abcdef"

  // n.toString(16)
  function ToHex(n: nat): (r: string)
    ensures r != []
  {
    if n < 16 then [DIGITS[n]] else ToHex(n / 16) + [DIGITS[n % 16]]
  }

  function Repeated(c: char, n: nat): (r: string)
    ensures |r| == n
  {
    seq(n, i => c)
  }

  function PadStart(s: string, width: nat, c: char): (r: string)
    ensures |r| == if |s| < width then width else |s|
  {
    if |s| < width then Repeated(c, width - |s|) + s else s
  }

  function PadEnd(s: string, width: nat, c: char): (r: string)
    ensures |r| == if |s| < width then width else |s|
  {
    if |s| < width then s + Repeated(c, width - |s|) else s
  }

  function HexPair(b: Octet): string {
    PadStart(ToHex(b), 2, '0')
  }

  function HexPairs(chunk: seq<Octet>): (r: seq<string>)
    ensures |r| == |chunk|
  {
    seq(|chunk|, i requires 0 <= i < |chunk| => HexPair(chunk[i]))
  }

  function Printable(b: Octet): char {
    if 0x20 <= b <= 0x7e then b as char else '.'
  }

  function Ascii(chunk: seq<Octet>): (r: string)
    ensures |r| == |chunk|
  {
    seq(|chunk|, i requires 0 <= i < |chunk| => Printable(chunk[i]))
  }

  // bytes.slice(offset, offset + 16)
  function Chunk(bytes: seq<Octet>, offset: nat): seq<Octet> {
    if offset < |bytes| then bytes[offset..Min(offset + 16, |bytes|)] else []
  }

  function Line(bytes: seq<Octet>, offset: nat): string {
    PadStart(ToHex(offset), 8, '0') + "  " + PadEnd(Join(' ', HexPairs(Chunk(bytes, offset))), 48, ' ')
    + "  " + Ascii(Chunk(bytes, offset))
  }

  // The lines from an offset on.
  function Lines(bytes: seq<Octet>, offset: nat): (r: seq<string>)
    decreases if offset < |bytes| then |bytes| - offset else 0
  {
    if offset >= |bytes| then [] else [Line(bytes, offset)] + Lines(bytes, offset + 16)
  }

  function Dump(buffer: seq<Octet>, maxBytes: nat): string {
    Join('\n', Lines(buffer[..Min(|buffer|, maxBytes)], 0))
  }

  method HexDump(buffer: seq<Octet>, maxBytes: nat) returns (text: string)
    ensures text == Dump(buffer, maxBytes)
  {
    hide ToHex, PadStart, PadEnd, Join, Ascii, HexPairs, Chunk;
    var bytes := buffer[..Min(|buffer|, maxBytes)];
    var lines: seq<string> := [];
    var offset: nat := 0;
    while offset < |bytes|
      invariant lines + Lines(bytes, offset) == Lines(bytes, 0)
      decreases if offset < |bytes| then |bytes| - offset else 0
    {
      var chunk := Chunk(bytes, offset);
      var hex := Join(' ', HexPairs(chunk));
      var ascii := Ascii(chunk);
      var line := PadStart(ToHex(offset), 8, '0') + "  " + PadEnd(hex, 48, ' ') + "  " + ascii;
      assert line == Line(bytes, offset);
      lines := lines + [line];
      offset := offset + 16;
    }
    assert lines + Lines(bytes, offset) == lines;
    text := Join('\n', lines);
  }

  // ---- Reading a dump back ----

  function Digit(c: char): int {
    if '0' <= c <= '9' then c as int - '0' as int
    else if 'a' <= c <= 'f' then c as int - 'a' as int + 10
    else 0
  }

  function FromHex(s: string): int {
    if s == [] then 0 else 16 * FromHex(s[..|s| - 1]) + Digit(s[|s| - 1])
  }

  // The pairs of a hex column, up to the padding.
  function ReadColumn(column: string): seq<int> {
    if |column| < 2 || column[0] == ' ' then []
    else [FromHex(column[..2])] + if |column| == 2 then [] else ReadColumn(column[3..])
  }

  function SplitLines(text: string): (r: seq<string>)
    ensures r != []
  {
    if text == [] then [[]]
    else
      var rest := SplitLines(text[1..]);
      if text[0] == '\n' then [[]] + rest else [[text[0]] + rest[0]] + rest[1..]
  }

  // Where the offset of a line ends.
  function OffsetEnd(line: string): (r: nat)
    ensures r <= |line| && ' ' !in line[..r]
    ensures r < |line| ==> line[r] == ' '
  {
    if line == [] || line[0] == ' ' then 0 else 1 + OffsetEnd(line[1..])
  }

  function ReadOffset(line: string): int {
    FromHex(line[..OffsetEnd(line)])
  }

  function HexColumn(line: string): string {
    var p := OffsetEnd(line) + 2;
    if p + 48 <= |line| then line[p..p + 48] else []
  }

  // What stands behind the hex column.
  function TextColumn(line: string): string {
    var p := OffsetEnd(line) + 52;
    if p <= |line| then line[p..] else []
  }

  function ReadAll(lines: seq<string>): seq<int> {
    if lines == [] then [] else ReadColumn(HexColumn(lines[0])) + ReadAll(lines[1..])
  }

  // ---- Numbers ----

  predicate Plain(s: string) {
    forall i | 0 <= i < |s| :: s[i] != ' ' && s[i] != '\n'
  }

  lemma {:induction false} DigitBack(d: nat)
    requires d < 16
    ensures Digit(DIGITS[d]) == d && DIGITS[d] != ' ' && DIGITS[d] != '\n'
  {
  }

  lemma {:induction false} FromToHex(n: nat)
    ensures FromHex(ToHex(n)) == n && Plain(ToHex(n))
  {
    DigitBack(n % 16);
    if n < 16 {
      assert ToHex(n)[..0] == [];
    } else {
      FromToHex(n / 16);
      assert ToHex(n)[..|ToHex(n)| - 1] == ToHex(n / 16);
    }
  }

  lemma {:induction false} FromPadded(s: string, k: nat)
    ensures FromHex(Repeated('0', k) + s) == FromHex(s)
  {
    var t := Repeated('0', k) + s;
    if s != [] {
      FromPadded(s[..|s| - 1], k);
      assert t[..|t| - 1] == Repeated('0', k) + s[..|s| - 1];
    } else if k > 0 {
      FromPadded(s, k - 1);
      assert t[..|t| - 1] == Repeated('0', k - 1) + s;
    } else {
      assert t == [];
    }
  }

  lemma {:induction false} PaddedNumber(n: nat, width: nat)
    ensures FromHex(PadStart(ToHex(n), width, '0')) == n && Plain(PadStart(ToHex(n), width, '0'))
  {
    FromToHex(n);
    if |ToHex(n)| < width {
      FromPadded(ToHex(n), width - |ToHex(n)|);
    }
  }

  lemma {:induction false} PairBack(b: Octet)
    ensures |HexPair(b)| == 2 && FromHex(HexPair(b)) == b && Plain(HexPair(b))
  {
    PaddedNumber(b, 2);
    if b >= 16 {
      assert ToHex(b) == ToHex(b / 16) + [DIGITS[b % 16]];
    }
  }

  // ---- One line ----

  lemma {:induction false} HexPairsFirst(chunk: seq<Octet>)
    requires chunk != []
    ensures HexPairs(chunk) == [HexPair(chunk[0])] + HexPairs(chunk[1..])
  {
  }

  lemma {:induction false} JoinFirst(first: string, rest: seq<string>)
    ensures Join(' ', [first] + rest) == if rest == [] then first else first + [' '] + Join(' ', rest)
  {
    assert ([first] + rest)[1..] == rest;
  }

  lemma {:induction false} ColumnWidth(chunk: seq<Octet>)
    ensures |Join(' ', HexPairs(chunk))| == if chunk == [] then 0 else 3 * |chunk| - 1
    ensures forall i | 0 <= i < |Join(' ', HexPairs(chunk))| :: Join(' ', HexPairs(chunk))[i] != '\n'
  {
    if chunk != [] {
      HexPairsFirst(chunk);
      JoinFirst(HexPair(chunk[0]), HexPairs(chunk[1..]));
      PairBack(chunk[0]);
      ColumnWidth(chunk[1..]);
      hide HexPair, Join, HexPairs;
    }
  }

  lemma {:induction false} ReadColumnBack(chunk: seq<Octet>, padding: nat)
    requires padding > 0
    ensures ReadColumn(Join(' ', HexPairs(chunk)) + Repeated(' ', padding)) == chunk
  {
    var column := Join(' ', HexPairs(chunk)) + Repeated(' ', padding);
    if chunk == [] {
      assert column == Repeated(' ', padding);
    } else {
      var first, rest := HexPair(chunk[0]), chunk[1..];
      HexPairsFirst(chunk);
      JoinFirst(first, HexPairs(rest));
      PairBack(chunk[0]);
      hide HexPair, HexPairs, Join;
      if rest == [] {
        assert column[..2] == first;
        assert column[3..] == Repeated(' ', padding - 1);
      } else {
        ReadColumnBack(rest, padding);
        assert column[..2] == first;
        assert column[3..] == Join(' ', HexPairs(rest)) + Repeated(' ', padding);
      }
      assert chunk == [chunk[0]] + rest;
    }
  }

  lemma {:induction false} OffsetEndIs(number: string, rest: string)
    requires Plain(number)
    ensures OffsetEnd(number + [' '] + rest) == |number|
  {
    var line := number + [' '] + rest;
    if number != [] {
      assert line[1..] == number[1..] + [' '] + rest;
      OffsetEndIs(number[1..], rest);
    }
  }

  // The parts of any line of this layout.
  lemma {:induction false} PartsOf(number: string, column: string, text: string)
    requires Plain(number) && |column| == 48
    ensures OffsetEnd(number + "  " + column + "  " + text) == |number|
    ensures ReadOffset(number + "  " + column + "  " + text) == FromHex(number)
    ensures HexColumn(number + "  " + column + "  " + text) == column
    ensures TextColumn(number + "  " + column + "  " + text) == text
  {
    var line := number + "  " + column + "  " + text;
    var rest := " " + column + "  " + text;
    assert line == number + [' '] + rest;
    OffsetEndIs(number, rest);
    hide OffsetEnd, FromHex;
    assert line[..|number|] == number;
    assert line[|number| + 2..|number| + 50] == column;
    assert line[|number| + 52..] == text;
  }

  // A hex column is 48 wide, reads back as its bytes, and breaks no line.
  lemma {:induction false} ColumnIs(chunk: seq<Octet>)
    requires |chunk| <= 16
    ensures var column := PadEnd(Join(' ', HexPairs(chunk)), 48, ' ');
            |column| == 48 && ReadColumn(column) == chunk && '\n' !in column
  {
    hide Join, HexPairs, ReadColumn, HexPair;
    var hex := Join(' ', HexPairs(chunk));
    ColumnWidth(chunk);
    ReadColumnBack(chunk, 48 - |hex|);
    assert PadEnd(hex, 48, ' ') == hex + Repeated(' ', 48 - |hex|);
    Unbroken(hex, 48 - |hex|);
    hide PadEnd, Repeated;
  }

  lemma {:induction false} Unbroken(hex: string, padding: nat)
    requires forall i | 0 <= i < |hex| :: hex[i] != '\n'
    ensures '\n' !in hex + Repeated(' ', padding)
  {
  }

  lemma {:induction false} NumberIs(offset: nat)
    ensures var number := PadStart(ToHex(offset), 8, '0');
            FromHex(number) == offset && Plain(number) && '\n' !in number
  {
    PaddedNumber(offset, 8);
    hide PadStart, ToHex, FromHex;
  }

  lemma {:induction false} AsciiIs(chunk: seq<Octet>)
    ensures '\n' !in Ascii(chunk)
  {
  }

  lemma {:induction false} NoneIn(c: char, a: string, b: string, d: string)
    requires c !in a && c !in b && c !in d && c != ' '
    ensures c !in a + "  " + b + "  " + d
  {
  }

  // The offset, the hex column and its bytes, and no newline.
  lemma {:induction false} LineIs(bytes: seq<Octet>, offset: nat)
    requires offset < |bytes|
    ensures ReadOffset(Line(bytes, offset)) == offset
    ensures |HexColumn(Line(bytes, offset))| == 48
    ensures ReadColumn(HexColumn(Line(bytes, offset))) == Chunk(bytes, offset)
    ensures TextColumn(Line(bytes, offset)) == Ascii(Chunk(bytes, offset))
    ensures '\n' !in Line(bytes, offset)
  {
    var chunk := Chunk(bytes, offset);
    assert |chunk| <= 16;
    hide *;
    var number, column, text := PadStart(ToHex(offset), 8, '0'), PadEnd(Join(' ', HexPairs(chunk)), 48, ' '), Ascii(chunk);
    NumberIs(offset);
    ColumnIs(chunk);
    AsciiIs(chunk);
    PartsOf(number, column, text);
    NoneIn('\n', number, column, text);
    LineOf(bytes, offset);
  }

  lemma {:induction false} LineOf(bytes: seq<Octet>, offset: nat)
    ensures Line(bytes, offset) ==
            PadStart(ToHex(offset), 8, '0') + "  " + PadEnd(Join(' ', HexPairs(Chunk(bytes, offset))), 48, ' ')
            + "  " + Ascii(Chunk(bytes, offset))
  {
  }

  // ---- The whole dump ----

  predicate NoNewlines(lines: seq<string>) {
    forall i | 0 <= i < |lines| :: '\n' !in lines[i]
  }

  lemma {:induction false} SplitOne(line: string)
    requires '\n' !in line
    ensures SplitLines(line) == [line]
  {
    if line != [] {
      SplitOne(line[1..]);
      assert line == [line[0]] + line[1..];
      assert [line[1..]][1..] == [];
    }
  }

  lemma {:induction false} SplitFirst(line: string, rest: string)
    requires '\n' !in line
    ensures SplitLines(line + ['\n'] + rest) == [line] + SplitLines(rest)
  {
    var text := line + ['\n'] + rest;
    if line == [] {
      assert text[1..] == rest;
    } else {
      assert text[1..] == line[1..] + ['\n'] + rest;
      SplitFirst(line[1..], rest);
      assert line == [line[0]] + line[1..];
      assert ([line[1..]] + SplitLines(rest))[1..] == SplitLines(rest);
    }
  }

  lemma {:induction false} SplitOfJoin(lines: seq<string>)
    requires lines != [] && NoNewlines(lines)
    ensures SplitLines(Join('\n', lines)) == lines
  {
    if |lines| == 1 {
      SplitOne(lines[0]);
    } else {
      SplitOfJoin(lines[1..]);
      SplitFirst(lines[0], Join('\n', lines[1..]));
    }
  }

  // Line k of a dump.
  lemma {:induction false} LinesAt(bytes: seq<Octet>, offset: nat, k: nat)
    requires k < |Lines(bytes, offset)|
    ensures offset + 16 * k < |bytes|
    ensures Lines(bytes, offset)[k] == Line(bytes, offset + 16 * k)
    decreases k
  {
    hide Line;
    if k > 0 {
      LinesAt(bytes, offset + 16, k - 1);
    }
  }

  lemma {:induction false} LinesRead(bytes: seq<Octet>, offset: nat)
    ensures ReadAll(Lines(bytes, offset)) == if offset < |bytes| then bytes[offset..] else []
    decreases if offset < |bytes| then |bytes| - offset else 0
  {
    hide Line, ReadColumn, HexColumn, ReadOffset;
    if offset < |bytes| {
      LineIs(bytes, offset);
      LinesRead(bytes, offset + 16);
      ReadFirst(Line(bytes, offset), Lines(bytes, offset + 16));
      ChunkFirst(bytes, offset);
      hide Chunk, ReadAll;
    }
  }

  lemma {:induction false} ReadFirst(line: string, rest: seq<string>)
    ensures ReadAll([line] + rest) == ReadColumn(HexColumn(line)) + ReadAll(rest)
  {
    assert ([line] + rest)[1..] == rest;
    hide ReadColumn, HexColumn;
  }

  lemma {:induction false} ChunkFirst(bytes: seq<Octet>, offset: nat)
    requires offset < |bytes|
    ensures bytes[offset..] == Chunk(bytes, offset) + if offset + 16 < |bytes| then bytes[offset + 16..] else []
  {
  }

  // Splitting a dump at its newlines gives its lines; line k shows offset 16k and a hex
  // column of 48 characters; and the columns hold exactly the bytes dumped.
  lemma {:induction false} DumpReadsBack(buffer: seq<Octet>, maxBytes: nat)
    ensures var bytes := buffer[..Min(|buffer|, maxBytes)];
            var lines := SplitLines(Dump(buffer, maxBytes));
            && ReadAll(lines) == bytes
            && (bytes != [] ==>
                  && lines == Lines(bytes, 0)
                  && forall k | 0 <= k < |lines| :: ReadOffset(lines[k]) == 16 * k && |HexColumn(lines[k])| == 48)
  {
    var bytes := buffer[..Min(|buffer|, maxBytes)];
    var lines := Lines(bytes, 0);
    if bytes == [] {
      assert Dump(buffer, maxBytes) == [];
    } else {
      forall k | 0 <= k < |lines|
        ensures ReadOffset(lines[k]) == 16 * k && |HexColumn(lines[k])| == 48 && '\n' !in lines[k]
      {
        LinesAt(bytes, 0, k);
        LineIs(bytes, 16 * k);
      }
      SplitOfJoin(lines);
      LinesRead(bytes, 0);
    }
  }

  // The text column shows the same bytes: printable ASCII as itself, the rest as dots.
  lemma {:induction false} TextShows(bytes: seq<Octet>, offset: nat, i: nat)
    requires offset + i < |bytes| && i < 16
    ensures var text := TextColumn(Line(bytes, offset));
            && |text| == Min(16, |bytes| - offset)
            && (if ' ' as int <= bytes[offset + i] <= '~' as int then text[i] as int == bytes[offset + i] else text[i] == '.')
  {
    LineIs(bytes, offset);
    hide Line, TextColumn, ReadOffset, HexColumn, ReadColumn;
    ChunkAt(bytes, offset, i);
    hide Chunk;
  }

  lemma {:induction false} ChunkAt(bytes: seq<Octet>, offset: nat, i: nat)
    requires offset + i < |bytes| && i < 16
    ensures |Chunk(bytes, offset)| == Min(16, |bytes| - offset) && i < |Chunk(bytes, offset)|
    ensures Chunk(bytes, offset)[i] == bytes[offset + i]
  {
  }

  // ---- Every character of a line ----

  // Hexadecimal digit k of n, from the right.
  function DigitAt(n: nat, k: nat): (d: nat)
    ensures d < 16
  {
    if k == 0 then n % 16 else DigitAt(n / 16, k - 1)
  }

  function Power16(k: nat): (p: nat)
    ensures p > 0
  {
    if k == 0 then 1 else 16 * Power16(k - 1)
  }

  lemma {:induction false} PadMore(s: string, width: nat, d: char)
    ensures PadStart(s + [d], width + 1, '0') == PadStart(s, width, '0') + [d]
  {
  }

  lemma {:induction false} ZeroFirst(width: nat, d: char)
    requires width > 1
    ensures PadStart([d], width, '0') == PadStart("0" + [d], width, '0')
  {
    assert Repeated('0', width - 1) == Repeated('0', width - 2) + "0";
  }

  lemma {:induction false} PaddedFirst(n: nat, width: nat)
    requires width > 1
    ensures PadStart(ToHex(n), width, '0') == PadStart(ToHex(n / 16), width - 1, '0') + [DIGITS[n % 16]]
  {
    hide PadStart;
    if n < 16 {
      assert ToHex(n / 16) == "0";
      ZeroFirst(width, DIGITS[n]);
    }
    PadMore(ToHex(n / 16), width - 1, DIGITS[n % 16]);
  }

  lemma {:induction false} DigitAtIs(n: nat, k: nat)
    ensures DigitAt(n, k) == if k == 0 then n % 16 else DigitAt(n / 16, k - 1)
    ensures n < Power16(k + 1) ==> n / 16 < Power16(k)
  {
  }

  lemma {:induction false} OneDigit(n: nat)
    requires n < Power16(1)
    ensures n < 16 && DigitAt(n, 0) == n && PadStart(ToHex(n), 1, '0') == [DIGITS[n]]
  {
    assert Power16(1) == 16 * Power16(0);
  }

  lemma {:induction false} PaddedDigits(n: nat, width: nat, j: nat)
    requires n < Power16(width) && j < width
    ensures |PadStart(ToHex(n), width, '0')| == width
    ensures PadStart(ToHex(n), width, '0')[j] == DIGITS[DigitAt(n, width - 1 - j)]
  {
    hide PadStart, ToHex, DigitAt, Power16;
    if width > 1 {
      DigitAtIs(n, width - 1 - j);
      DigitAtIs(n, width - 1);
      PaddedFirst(n, width);
      PaddedDigits(n / 16, width - 1, if j < width - 1 then j else 0);
    } else {
      OneDigit(n);
    }
  }

  // A pair stands in a column, with a blank behind it unless it is the last.
  predicate PairAt(column: string, p: nat, pair: string) {
    p + 2 <= |column| && column[p..p + 2] == pair && (p + 2 < |column| ==> column[p + 2] == ' ')
  }

  lemma {:induction false} Front(first: string, rest: string)
    requires |first| == 2
    ensures PairAt(first, 0, first) && PairAt(first + [' '] + rest, 0, first)
  {
  }

  lemma {:induction false} Behind(first: string, rest: string, p: nat, pair: string)
    requires |first| == 2 && PairAt(rest, p, pair)
    ensures PairAt(first + [' '] + rest, p + 3, pair)
  {
    var column := first + [' '] + rest;
    assert column[3..] == rest;
    assert column[p + 3..p + 5] == rest[p..p + 2];
  }

  lemma {:induction false} ColumnFrom(chunk: seq<Octet>)
    requires chunk != []
    ensures |HexPair(chunk[0])| == 2
    ensures Join(' ', HexPairs(chunk)) ==
            if |chunk| == 1 then HexPair(chunk[0]) else HexPair(chunk[0]) + [' '] + Join(' ', HexPairs(chunk[1..]))
  {
    hide Join, HexPair, HexPairs;
    HexPairsFirst(chunk);
    JoinFirst(HexPair(chunk[0]), HexPairs(chunk[1..]));
    PairBack(chunk[0]);
  }

  lemma {:induction false} ColumnAt(chunk: seq<Octet>, i: nat)
    requires i < |chunk|
    ensures PairAt(Join(' ', HexPairs(chunk)), 3 * i, HexPair(chunk[i]))
  {
    hide *;
    ColumnFrom(chunk);
    var rest := Join(' ', HexPairs(chunk[1..]));
    if i == 0 {
      Front(HexPair(chunk[0]), rest);
    } else {
      ColumnAt(chunk[1..], i - 1);
      Behind(HexPair(chunk[0]), rest, 3 * (i - 1), HexPair(chunk[i]));
    }
  }

  lemma {:induction false} PairDigits(b: Octet)
    ensures HexPair(b) == [DIGITS[b / 16], DIGITS[b % 16]]
  {
    if b >= 16 {
      assert ToHex(b) == ToHex(b / 16) + [DIGITS[b % 16]] && ToHex(b / 16) == [DIGITS[b / 16]];
    } else {
      assert Repeated('0', 1) == [DIGITS[0]];
    }
  }

  lemma {:induction false} PaddedColumnAt(chunk: seq<Octet>, i: nat)
    requires |chunk| <= 16 && i < 16
    ensures var column := PadEnd(Join(' ', HexPairs(chunk)), 48, ' ');
            && |column| == 48 && column[3 * i + 2] == ' '
            && (if i < |chunk|
                then column[3 * i] == DIGITS[chunk[i] / 16] && column[3 * i + 1] == DIGITS[chunk[i] % 16]
                else column[3 * i] == column[3 * i + 1] == ' ')
  {
    var hex := Join(' ', HexPairs(chunk));
    ColumnWidth(chunk);
    if i < |chunk| {
      ColumnAt(chunk, i);
      PairDigits(chunk[i]);
      assert hex[3 * i..3 * i + 2] == HexPair(chunk[i]);
    }
    hide Join, HexPairs, HexPair, DIGITS;
    assert PadEnd(hex, 48, ' ') == hex + Repeated(' ', 48 - |hex|);
  }

  lemma {:induction false} NumberShows(offset: nat)
    requires offset < Power16(8)
    ensures var number := PadStart(ToHex(offset), 8, '0');
            |number| == 8 && forall j | 0 <= j < 8 :: number[j] == DIGITS[DigitAt(offset, 7 - j)]
  {
    hide ToHex, PadStart, DigitAt, Power16;
    forall j | 0 <= j < 8
      ensures |PadStart(ToHex(offset), 8, '0')| == 8
      ensures PadStart(ToHex(offset), 8, '0')[j] == DIGITS[DigitAt(offset, 7 - j)]
    {
      PaddedDigits(offset, 8, j);
    }
    PaddedDigits(offset, 8, 0);
  }

  lemma {:induction false} Placed(number: string, column: string, text: string)
    requires |number| == 8 && |column| == 48
    ensures var line := number + "  " + column + "  " + text;
            && |line| == 60 + |text| && line[8..10] == line[58..60] == "  "
            && (forall j | 0 <= j < 8 :: line[j] == number[j])
            && (forall j | 10 <= j < 58 :: line[j] == column[j - 10])
            && (forall j | 60 <= j < 60 + |text| :: line[j] == text[j - 60])
  {
  }

  // A line, position by position: eight digits of the offset, the two digits of each
  // byte three positions apart, the text, and blanks everywhere else.
  lemma {:induction false} LineShows(bytes: seq<Octet>, offset: nat, i: nat)
    requires offset < |bytes| && offset < Power16(8) && i < 16
    ensures var n := Min(16, |bytes| - offset);
            var line := Line(bytes, offset);
            && |line| == 60 + n
            && (forall j | 0 <= j < 8 :: line[j] == DIGITS[DigitAt(offset, 7 - j)])
            && line[8..10] == line[58..60] == "  "
            && (if i < n
                then line[10 + 3 * i] == DIGITS[bytes[offset + i] / 16] && line[11 + 3 * i] == DIGITS[bytes[offset + i] % 16]
                else line[10 + 3 * i] == line[11 + 3 * i] == ' ')
            && line[12 + 3 * i] == ' '
            && (i < n ==> line[60 + i] == Printable(bytes[offset + i]))
  {
    var chunk := Chunk(bytes, offset);
    var number, column, text := PadStart(ToHex(offset), 8, '0'), PadEnd(Join(' ', HexPairs(chunk)), 48, ' '), Ascii(chunk);
    assert i < |chunk| ==> text[i] == Printable(chunk[i]);
    hide *;
    ChunkAt(bytes, offset, 0);
    if i < |chunk| {
      ChunkAt(bytes, offset, i);
    }
    PaddedColumnAt(chunk, i);
    NumberShows(offset);
    LineOf(bytes, offset);
    Placed(number, column, text);
  }
}
