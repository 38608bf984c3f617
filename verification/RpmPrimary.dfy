// The package list of an RPM repository, and reading it back.
module RpmPrimary {
  import opened Text
  import opened XmlEscape
  import RpmName

  datatype Artifact = Artifact(path: string, sizeBytes: nat, checksum: Option<string>)

  // ---- format! strings ----

  // A format string, cut at its slots, with the slots filled in.
  function Render(pieces: seq<string>, fields: seq<string>): string
    requires |pieces| == |fields| + 1
  {
    if fields == [] then pieces[0] else pieces[0] + (fields[0] + Render(pieces[1..], fields[1..]))
  }

  function Decimal(n: nat): (r: string)
    ensures r != []
  {
    if n < 10 then [(n + '0' as int) as char] else Decimal(n / 10) + [(n % 10 + '0' as int) as char]
  }

  // ---- The document ----

  const XML := "<?xml version=\"1.0\" encoding=\"UTF-8\"?>\n"
               + "<metadata xmlns=\"http://linux.duke.edu/metadata/common\" "
               + "xmlns:rpm=\"http://linux.duke.edu/metadata/rpm\" packages=\""
  const OPEN := "  <package type=\"rpm\">\n    " + "<name>"
  const ARCH := "</name>" + "\n    " + "<arch>"
  const VERSION := "</arch>" + "\n    " + "<version epoch=\"0\" ver=\""
  const RELEASE := "\" rel=\""
  const CHECKSUM := "\"/>" + "\n    " + "<checksum type=\"sha256\" pkgid=\"YES\">"
  const SIZE := "</checksum>" + "\n    <summary/>\n    <description/>\n    <packager/>\n    <url/>\n    " + "<size package=\""
  const LOCATION := "\" installed=" + "\"0\" archive=\"0\"/>\n    " + "<location href=\"packages/"
  const PROVIDES := "\"/>" + "\n    <format>\n      <rpm:provides>\n        " + "<rpm:entry name=\""
  const ENTRY := "\" flags=\"EQ\"" + " epoch=\"0\"" + " ver=\""
  const CLOSE := "\"/>" + "\n      </rpm:provides>\n    </format>\n  </package>\n"
  const TAIL := "</metadata>\n"

  const HEAD: seq<string> := [XML, "\">\n"]

  const PACKAGE: seq<string> := [OPEN, ARCH, VERSION, RELEASE, CHECKSUM, SIZE, LOCATION, PROVIDES, ENTRY, RELEASE, CLOSE]

  function Or(o: Option<string>, default: string): string {
    if o.Some? then o.value else default
  }

  // What an entry says, slot by slot.
  function Values(a: Artifact): (r: seq<string>)
    ensures |r| == 10
  {
    var filename := FileName(a.path);
    var info := RpmName.Parse(filename);
    var name, version, release := Or(info.name, "unknown"), Or(info.version, "0"), Or(info.release, "0");
    [name, Or(info.arch, "x86_64"), version, release, Or(a.checksum, ""), Decimal(a.sizeBytes), filename,
     name, version, release]
  }

  // How it is written: all but the checksum and the size are escaped.
  function Fields(a: Artifact): (r: seq<string>)
    ensures |r| == 10
  {
    var v := Values(a);
    seq(10, i requires 0 <= i < 10 => if i == 4 || i == 5 then v[i] else Escape(v[i]))
  }

  function Package(a: Artifact): string {
    Render(PACKAGE, Fields(a))
  }

  function Packages(artifacts: seq<Artifact>): string {
    if artifacts == [] then TAIL else Package(artifacts[0]) + Packages(artifacts[1..])
  }

  function Head(count: nat): string {
    Render(HEAD, [Decimal(count)])
  }

  function Document(artifacts: seq<Artifact>): string {
    Head(|artifacts|) + Packages(artifacts)
  }

  method PrimaryXml(artifacts: seq<Artifact>) returns (xml: string)
    ensures xml == Document(artifacts)
  {
    hide Render, Package, Decimal, HEAD, TAIL;
    xml := Head(|artifacts|);
    for i := 0 to |artifacts|
      invariant xml + Packages(artifacts[i..]) == Document(artifacts)
    {
      assert artifacts[i..][0] == artifacts[i] && artifacts[i..][1..] == artifacts[i + 1..];
      Assoc(xml, Package(artifacts[i]), Packages(artifacts[i + 1..]));
      xml := xml + Package(artifacts[i]);
    }
    xml := xml + TAIL;
  }

  lemma {:induction false} Assoc(a: string, b: string, c: string)
    ensures (a + b) + c == a + (b + c)
  {
  }

  // ---- A reader that knows the layout ----

  predicate Delimiter(c: char) {
    c == '<' || c == '"'
  }

  // Text up to the next piece of markup.
  function UpTo(text: string): (r: string)
    ensures r <= text
    ensures forall i | 0 <= i < |r| :: !Delimiter(r[i])
  {
    if text == [] || Delimiter(text[0]) then [] else [text[0]] + UpTo(text[1..])
  }

  function Read(pieces: seq<string>, text: string): (r: Option<(seq<string>, string)>)
    requires pieces != []
    ensures r.Some? ==> |r.value.1| + |pieces[0]| <= |text|
  {
    if !(pieces[0] <= text) then None
    else
      var after := text[|pieces[0]|..];
      if |pieces| == 1 then Some(([], after))
      else
        match Read(pieces[1..], after[|UpTo(after)|..])
        case None => None
        case Some((fields, rest)) => Some(([UpTo(after)] + fields, rest))
  }

  function UnescapeAll(fields: seq<string>): Option<seq<string>> {
    if fields == [] then Some([])
    else
      match (Unescape(fields[0]), UnescapeAll(fields[1..]))
      case (Some(v), Some(vs)) => Some([v] + vs)
      case _ => None
  }

  function ReadPackages(text: string): Option<seq<seq<string>>>
    decreases |text|
  {
    assert PACKAGE[0] == OPEN && OPEN != [];
    if text == TAIL then Some([])
    else
      match Read(PACKAGE, text)
      case None => None
      case Some((fields, rest)) =>
        match (UnescapeAll(fields), ReadPackages(rest))
        case (Some(values), Some(more)) => Some([values] + more)
        case _ => None
  }

  // The packages attribute, and the values of every entry.
  function ReadDocument(text: string): Option<(seq<string>, seq<seq<string>>)> {
    match Read(HEAD, text)
    case None => None
    case Some((count, rest)) =>
      match ReadPackages(rest)
      case None => None
      case Some(entries) => Some((count, entries))
  }

  // ---- The reader undoes the writer ----

  // A slot ends where markup begins.
  predicate Delimits(piece: string) {
    piece != [] && Delimiter(piece[0])
  }

  predicate Delimited(pieces: seq<string>) {
    forall i | 1 <= i < |pieces| :: Delimits(pieces[i])
  }

  predicate Markless(s: string) {
    forall i | 0 <= i < |s| :: !Delimiter(s[i])
  }

  lemma {:induction false} UpToIs(field: string, rest: string)
    requires Markless(field) && rest != [] && Delimiter(rest[0])
    ensures UpTo(field + rest) == field
  {
    if field == [] {
      assert field + rest == rest;
    } else {
      assert (field + rest)[1..] == field[1..] + rest;
      UpToIs(field[1..], rest);
    }
  }

  lemma {:induction false} ReadRender(pieces: seq<string>, fields: seq<string>, rest: string)
    requires |pieces| == |fields| + 1 && Delimited(pieces)
    requires forall i | 0 <= i < |fields| :: Markless(fields[i])
    ensures Read(pieces, Render(pieces, fields) + rest) == Some((fields, rest))
    decreases |pieces|
  {
    var text := Render(pieces, fields) + rest;
    if fields == [] {
      assert text[|pieces[0]|..] == rest;
    } else {
      var more := Render(pieces[1..], fields[1..]);
      var after := text[|pieces[0]|..];
      assert Delimits(pieces[1]);
      RenderStarts(pieces[1..], fields[1..]);
      assert after == fields[0] + (more + rest);
      UpToIs(fields[0], more + rest);
      ReadRender(pieces[1..], fields[1..], rest);
      assert after[|fields[0]|..] == more + rest;
      assert fields == [fields[0]] + fields[1..];
    }
  }

  lemma {:induction false} RenderStarts(pieces: seq<string>, fields: seq<string>)
    requires |pieces| == |fields| + 1 && Delimits(pieces[0])
    ensures Render(pieces, fields) != [] && Delimiter(Render(pieces, fields)[0])
  {
  }

  lemma {:induction false} Layout()
    ensures Delimited(HEAD) && Delimited(PACKAGE)
  {
    assert Delimits(ARCH) && Delimits(VERSION) && Delimits(RELEASE);
    assert Delimits(CHECKSUM);
    assert Delimits(SIZE);
    assert Delimits(LOCATION);
    assert Delimits(PROVIDES) && Delimits(ENTRY) && Delimits(CLOSE);
    assert Delimits("\">\n");
    hide Delimits;
  }

  // ---- Fields ----

  predicate Ordinary(s: string) {
    forall i | 0 <= i < |s| :: !Special(s[i])
  }

  lemma {:induction false} OrdinaryReads(s: string)
    requires Ordinary(s)
    ensures Unescape(s) == Some(s) && Markless(s)
  {
    if s != [] {
      OrdinaryReads(s[1..]);
      assert s == [s[0]] + s[1..];
    }
  }

  lemma {:induction false} EscapedReads(s: string)
    ensures Unescape(Escape(s)) == Some(s) && Markless(Escape(s))
  {
    UnescapeOfEscape(s);
    forall i | 0 <= i < |Escape(s)|
      ensures !Delimiter(Escape(s)[i])
    {
      EscapedIsClean(s, i);
    }
  }

  function FromDecimal(s: string): int {
    if s == [] then 0 else 10 * FromDecimal(s[..|s| - 1]) + (s[|s| - 1] as int - '0' as int)
  }

  lemma {:induction false} DecimalReads(n: nat)
    ensures FromDecimal(Decimal(n)) == n && Ordinary(Decimal(n))
  {
    if n < 10 {
      assert Decimal(n)[..0] == [];
    } else {
      DecimalReads(n / 10);
      assert Decimal(n)[..|Decimal(n)| - 1] == Decimal(n / 10);
    }
  }

  // A size in decimal digits, without leading zeros.
  lemma {:induction false} DecimalIs(n: nat)
    ensures FromDecimal(Decimal(n)) == n
    ensures forall i | 0 <= i < |Decimal(n)| :: '0' <= Decimal(n)[i] <= '9'
    ensures Decimal(n)[0] == '0' <==> n == 0
    ensures n == 0 ==> Decimal(n) == "0"
  {
    DecimalReads(n);
    if n >= 10 {
      DecimalIs(n / 10);
    }
  }

  // A checksum that needs no escaping, or none; a hexadecimal one never does.
  predicate PlainChecksum(a: Artifact) {
    Ordinary(Or(a.checksum, ""))
  }

  // What a slot holds, and how it is written.
  lemma {:induction false} FieldIs(a: Artifact, i: nat)
    requires i < 10
    ensures Fields(a)[i] == if i == 4 || i == 5 then Values(a)[i] else Escape(Values(a)[i])
    ensures Values(a)[4] == Or(a.checksum, "") && Values(a)[5] == Decimal(a.sizeBytes)
  {
    hide Escape, Decimal, FileName, RpmName.Parse, Or;
  }

  lemma {:induction false} FieldReads(a: Artifact, i: nat)
    requires i < 10 && (i == 4 ==> PlainChecksum(a))
    ensures Unescape(Fields(a)[i]) == Some(Values(a)[i]) && Markless(Fields(a)[i])
  {
    FieldIs(a, i);
    hide Values, Fields, Escape, Unescape, Markless, Decimal, Or;
    if i == 4 {
      OrdinaryReads(Values(a)[4]);
    } else if i == 5 {
      DecimalReads(a.sizeBytes);
      OrdinaryReads(Values(a)[5]);
    } else {
      EscapedReads(Values(a)[i]);
    }
  }

  lemma {:induction false} UnescapeAllIs(fields: seq<string>, values: seq<string>)
    requires |fields| == |values|
    requires forall i | 0 <= i < |fields| :: Unescape(fields[i]) == Some(values[i])
    ensures UnescapeAll(fields) == Some(values)
  {
    hide Unescape;
    if fields != [] {
      UnescapeAllIs(fields[1..], values[1..]);
      assert values == [values[0]] + values[1..];
    }
  }

  lemma {:induction false} PackageReads(a: Artifact, rest: string)
    requires PlainChecksum(a)
    ensures Read(PACKAGE, Package(a) + rest) == Some((Fields(a), rest))
    ensures UnescapeAll(Fields(a)) == Some(Values(a))
  {
    hide Read, Render, UnescapeAll, Unescape, Markless, Delimited, Values, PlainChecksum;
    forall i | 0 <= i < 10
      ensures Unescape(Fields(a)[i]) == Some(Values(a)[i]) && Markless(Fields(a)[i])
    {
      FieldReads(a, i);
    }
    hide Fields;
    Layout();
    ReadRender(PACKAGE, Fields(a), rest);
    UnescapeAllIs(Fields(a), Values(a));
  }

  lemma {:induction false} PackageStarts(a: Artifact, rest: string)
    ensures Package(a) + rest != TAIL
  {
    assert PACKAGE[0] == OPEN && OPEN[0] == ' ' && TAIL[0] == '<';
    hide Fields, OPEN, PACKAGE, TAIL;
  }

  function AllValues(artifacts: seq<Artifact>): (r: seq<seq<string>>)
    ensures |r| == |artifacts| && forall i | 0 <= i < |r| :: r[i] == Values(artifacts[i])
  {
    if artifacts == [] then [] else [Values(artifacts[0])] + AllValues(artifacts[1..])
  }

  // ---- A checksum that needs escaping ----

  lemma {:induction false} UnescapeShrinks(s: string)
    requires Unescape(s).Some?
    ensures |Unescape(s).value| <= |s|
    ensures |Unescape(s).value| == |s| ==> Ordinary(s)
    decreases |s|
  {
    if s != [] {
      if Special(s[0]) {
        EntityLong(s);
        UnescapeShrinks(s[EntityAt(s).value.1..]);
      } else {
        UnescapeShrinks(s[1..]);
        assert s == [s[0]] + s[1..];
      }
    }
  }

  lemma {:induction false} EntityLong(s: string)
    ensures EntityAt(s).Some? ==> EntityAt(s).value.1 > 1
  {
  }

  lemma {:induction false} UpToShort(field: string, rest: string)
    requires rest != [] && Delimiter(rest[0])
    ensures UpTo(field + rest) <= field
  {
    if field == [] {
      assert field + rest == rest;
    } else {
      assert (field + rest)[1..] == field[1..] + rest;
      UpToShort(field[1..], rest);
    }
  }

  // Behind slots that read back, a slot reads as some beginning of what it holds.
  lemma {:induction false} ReadsBeginning(pieces: seq<string>, fields: seq<string>, rest: string, j: nat)
    requires |pieces| == |fields| + 1 && Delimited(pieces) && j < |fields|
    requires forall i | 0 <= i < j :: Markless(fields[i])
    requires Read(pieces, Render(pieces, fields) + rest).Some?
    ensures var read := Read(pieces, Render(pieces, fields) + rest).value.0;
            j < |read| && read[j] <= fields[j]
    decreases j
  {
    var text := Render(pieces, fields) + rest;
    var more := Render(pieces[1..], fields[1..]);
    var after := text[|pieces[0]|..];
    assert Delimits(pieces[1]);
    RenderStarts(pieces[1..], fields[1..]);
    assert after == fields[0] + (more + rest);
    if j == 0 {
      UpToShort(fields[0], more + rest);
    } else {
      UpToIs(fields[0], more + rest);
      assert after[|fields[0]|..] == more + rest;
      ReadsBeginning(pieces[1..], fields[1..], rest, j - 1);
    }
  }

  lemma {:induction false} UnescapeAllAt(fields: seq<string>, i: nat)
    requires UnescapeAll(fields).Some? && i < |fields|
    ensures |UnescapeAll(fields).value| == |fields|
    ensures Unescape(fields[i]) == Some(UnescapeAll(fields).value[i])
  {
    hide Unescape;
    if i > 0 {
      UnescapeAllAt(fields[1..], i - 1);
    } else if |fields| > 1 {
      UnescapeAllAt(fields[1..], 0);
    }
  }

  // An entry is read as what it says only if its checksum needs no escaping.
  lemma {:induction false} PackageMisreads(a: Artifact, rest: string)
    requires Read(PACKAGE, Package(a) + rest).Some?
    requires UnescapeAll(Read(PACKAGE, Package(a) + rest).value.0) == Some(Values(a))
    ensures PlainChecksum(a)
  {
    hide Read, Render, UnescapeAll, Unescape, Markless, Delimited, Values, Fields, Ordinary;
    forall i | 0 <= i < 4
      ensures Markless(Fields(a)[i])
    {
      FieldReads(a, i);
    }
    FieldIs(a, 4);
    Layout();
    ReadsBeginning(PACKAGE, Fields(a), rest, 4);
    var read := Read(PACKAGE, Package(a) + rest).value.0;
    UnescapeAllAt(read, 4);
    UnescapeShrinks(read[4]);
    assert read[4] == Fields(a)[4];
  }

  lemma {:induction false} PackagesReadIff(artifacts: seq<Artifact>)
    ensures ReadPackages(Packages(artifacts)) == Some(AllValues(artifacts))
            <==> forall i | 0 <= i < |artifacts| :: PlainChecksum(artifacts[i])
  {
    hide Read, UnescapeAll, Package, PlainChecksum, Values, TAIL, PACKAGE, OPEN;
    if artifacts == [] {
      return;
    }
    var first, rest := artifacts[0], artifacts[1..];
    PackagesReadIff(rest);
    PackageStarts(first, Packages(rest));
    assert (forall i | 0 <= i < |artifacts| :: PlainChecksum(artifacts[i])) <==>
           PlainChecksum(first) && forall i | 0 <= i < |rest| :: PlainChecksum(rest[i]) by {
      assert artifacts == [first] + rest;
    }
    if PlainChecksum(first) {
      PackageReads(first, Packages(rest));
      var more := ReadPackages(Packages(rest));
      assert more.Some? ==> ([Values(first)] + more.value)[1..] == more.value;
      assert ([Values(first)] + AllValues(rest))[1..] == AllValues(rest);
    } else if ReadPackages(Packages(artifacts)) == Some(AllValues(artifacts)) {
      assert AllValues(artifacts)[0] == Values(first);
      PackageMisreads(first, Packages(rest));
    }
  }

  // Whatever the file names are, the document reads back as its count and one entry
  // for each artifact, in order, with the parts of its name: exactly if no checksum,
  // which is written as it is, needs escaping.
  lemma {:induction false} DocumentReadsIff(artifacts: seq<Artifact>)
    ensures ReadDocument(Document(artifacts)) == Some(([Decimal(|artifacts|)], AllValues(artifacts)))
            <==> forall i | 0 <= i < |artifacts| :: PlainChecksum(artifacts[i])
    ensures FromDecimal(Decimal(|artifacts|)) == |artifacts|
  {
    hide Read, Render, ReadPackages, Packages, AllValues, PlainChecksum, FromDecimal, Decimal;
    DecimalReads(|artifacts|);
    OrdinaryReads(Decimal(|artifacts|));
    Layout();
    ReadRender(HEAD, [Decimal(|artifacts|)], Packages(artifacts));
    PackagesReadIff(artifacts);
  }

  // An entry names the file it was made from: its name, version, release and arch
  // print as its location whenever the file name has all four.
  lemma {:induction false} LocationIsPrinted(a: Artifact)
    requires RpmName.Parse(FileName(a.path)).arch.Some? && RpmName.Parse(FileName(a.path)).version.Some?
    ensures var v := Values(a);
            v[6] == v[0] + "-" + v[2] + "-" + v[3] + "." + v[1] + ".rpm"
  {
    RpmName.ParsedIsRpm(FileName(a.path));
    RpmName.PrintOfParse(FileName(a.path));
    hide FileName, RpmName.Parse;
  }

  // What an entry says in each of its slots: the parts of the file name, with a default
  // for each that is missing, the checksum, the size, the file name itself, and the
  // name, version and release again as what the package provides.
  lemma {:induction false} EntryIs(a: Artifact)
    ensures var v := Values(a);
            var info := RpmName.Parse(FileName(a.path));
            && (match info.name case Some(name) => v[0] == name && v[7] == name case None => v[0] == v[7] == "unknown")
            && (match info.arch case Some(arch) => v[1] == arch case None => v[1] == "x86_64")
            && (match info.version case Some(version) => v[2] == version && v[8] == version case None => v[2] == v[8] == "0")
            && (match info.release case Some(release) => v[3] == release && v[9] == release case None => v[3] == v[9] == "0")
            && (match a.checksum case Some(sum) => v[4] == sum case None => v[4] == "")
            && FromDecimal(v[5]) == a.sizeBytes
            && v[6] == FileName(a.path)
  {
    DecimalReads(a.sizeBytes);
    hide FileName, RpmName.Parse, FromDecimal, Decimal;
  }

  // ---- The elements of an entry ----

  predicate At(text: string, part: string, i: int) {
    0 <= i <= |text| - |part| && text[i..i + |part|] == part
  }

  predicate Contains(text: string, part: string) {
    exists i | 0 <= i <= |text| :: At(text, part, i)
  }

  predicate EndsWith(s: string, end: string) {
    |end| <= |s| && s[|s| - |end|..] == end
  }

  lemma {:induction false} ContainsIs(text: string, before: string, part: string, after: string)
    requires text == before + part + after
    ensures Contains(text, part)
  {
    assert text[|before|..|before| + |part|] == part;
    assert At(text, part, |before|);
  }

  // A slot stands between what its two pieces end and begin with.
  lemma {:induction false} SlotStands(pieces: seq<string>, fields: seq<string>, j: nat, left: string, right: string)
    requires |pieces| == |fields| + 1 && j < |fields|
    requires EndsWith(pieces[j], left) && right <= pieces[j + 1]
    ensures Contains(Render(pieces, fields), left + fields[j] + right)
  {
    var before, after := SlotIn(pieces, fields, j);
    var lead, trail := pieces[j][..|pieces[j]| - |left|], pieces[j + 1][|right|..];
    assert pieces[j] == lead + left && pieces[j + 1] == right + trail;
    hide Render, EndsWith, Contains;
    assert before + (pieces[j] + fields[j] + pieces[j + 1]) + after
        == (before + lead) + (left + fields[j] + right) + (trail + after);
    ContainsIs(Render(pieces, fields), before + lead, left + fields[j] + right, trail + after);
  }

  lemma {:induction false} SlotIn(pieces: seq<string>, fields: seq<string>, j: nat) returns (before: string, after: string)
    requires |pieces| == |fields| + 1 && j < |fields|
    ensures Render(pieces, fields) == before + (pieces[j] + fields[j] + pieces[j + 1]) + after
    decreases j
  {
    var more := Render(pieces[1..], fields[1..]);
    assert Render(pieces, fields) == pieces[0] + (fields[0] + more);
    if j == 0 {
      before, after := "", more[|pieces[1]|..];
      RenderBegins(pieces[1..], fields[1..]);
      hide Render;
      assert more == pieces[1] + after;
    } else {
      var inner;
      inner, after := SlotIn(pieces[1..], fields[1..], j - 1);
      hide Render;
      before := pieces[0] + fields[0] + inner;
      var middle := pieces[j] + fields[j] + pieces[j + 1];
      assert more == inner + middle + after;
      assert pieces[0] + (fields[0] + (inner + middle + after)) == before + middle + after;
    }
  }

  lemma {:induction false} RenderBegins(pieces: seq<string>, fields: seq<string>)
    requires |pieces| == |fields| + 1
    ensures pieces[0] <= Render(pieces, fields)
  {
  }

  lemma {:induction false} Between(left: string, middle: string, right: string)
    ensures EndsWith(left + middle + right, right) && left <= left + middle + right
  {
    assert (left + middle + right)[|left + middle|..] == right;
  }

  lemma {:induction false} Tagged(left: string, right: string)
    ensures EndsWith(left + right, right) && left <= left + right
  {
    assert (left + right)[|left|..] == right;
  }

  lemma {:induction false} FirstPieces()
    ensures EndsWith(OPEN, "<name>")
    ensures "</name>" <= ARCH && EndsWith(ARCH, "<arch>")
    ensures "</arch>" <= VERSION && EndsWith(VERSION, "<version epoch=\"0\" ver=\"")
  {
    Tagged("  <package type=\"rpm\">\n    ", "<name>");
    Between("</name>", "\n    ", "<arch>");
    Between("</arch>", "\n    ", "<version epoch=\"0\" ver=\"");
    hide EndsWith;
  }

  lemma {:induction false} MiddlePieces()
    ensures "\"/>" <= CHECKSUM && EndsWith(CHECKSUM, "<checksum type=\"sha256\" pkgid=\"YES\">")
    ensures "</checksum>" <= SIZE && EndsWith(SIZE, "<size package=\"")
    ensures "\" installed=" <= LOCATION && EndsWith(LOCATION, "<location href=\"packages/")
  {
    Between("\"/>", "\n    ", "<checksum type=\"sha256\" pkgid=\"YES\">");
    Between("</checksum>", "\n    <summary/>\n    <description/>\n    <packager/>\n    <url/>\n    ", "<size package=\"");
    Between("\" installed=", "\"0\" archive=\"0\"/>\n    ", "<location href=\"packages/");
    hide EndsWith;
  }

  lemma {:induction false} LastPieces()
    ensures "\"/>" <= PROVIDES && EndsWith(PROVIDES, "<rpm:entry name=\"")
    ensures "\" flags=\"EQ\"" <= ENTRY && EndsWith(ENTRY, " ver=\"")
    ensures "\"/>" <= CLOSE
    ensures EndsWith(RELEASE, "\" rel=\"")
  {
    Between("\"/>", "\n    <format>\n      <rpm:provides>\n        ", "<rpm:entry name=\"");
    Between("\" flags=\"EQ\"", " epoch=\"0\"", " ver=\"");
    Tagged("\"/>", "\n      </rpm:provides>\n    </format>\n  </package>\n");
    assert RELEASE[0..] == RELEASE;
  }

  lemma {:induction false} Pieces()
    ensures PACKAGE[0] == OPEN && PACKAGE[1] == ARCH && PACKAGE[2] == VERSION && PACKAGE[3] == RELEASE
    ensures PACKAGE[4] == CHECKSUM && PACKAGE[5] == SIZE && PACKAGE[6] == LOCATION && PACKAGE[7] == PROVIDES
    ensures PACKAGE[8] == ENTRY && PACKAGE[9] == RELEASE && PACKAGE[10] == CLOSE && |PACKAGE| == 11
  {
    hide OPEN, ARCH, VERSION, RELEASE, CHECKSUM, SIZE, LOCATION, PROVIDES, ENTRY, CLOSE;
  }

  // What stands around the parts of the file name.
  lemma {:induction false} NameElements(a: Artifact)
    ensures var f := Fields(a);
            && Contains(Package(a), "<name>" + f[0] + "</name>")
            && Contains(Package(a), "<arch>" + f[1] + "</arch>")
            && Contains(Package(a), "<version epoch=\"0\" ver=\"" + f[2] + "\" rel=\"")
            && Contains(Package(a), "\" rel=\"" + f[3] + "\"/>")
  {
    FirstPieces();
    MiddlePieces();
    LastPieces();
    Pieces();
    hide EndsWith, Contains, Render, Fields, PACKAGE, OPEN, ARCH, VERSION, CHECKSUM;
    SlotStands(PACKAGE, Fields(a), 0, "<name>", "</name>");
    SlotStands(PACKAGE, Fields(a), 1, "<arch>", "</arch>");
    SlotStands(PACKAGE, Fields(a), 2, "<version epoch=\"0\" ver=\"", "\" rel=\"");
    SlotStands(PACKAGE, Fields(a), 3, "\" rel=\"", "\"/>");
  }

  // What stands around the checksum, the size and the file name.
  lemma {:induction false} FileElements(a: Artifact)
    ensures var f := Fields(a);
            && Contains(Package(a), "<checksum type=\"sha256\" pkgid=\"YES\">" + f[4] + "</checksum>")
            && Contains(Package(a), "<size package=\"" + f[5] + "\" installed=")
            && Contains(Package(a), "<location href=\"packages/" + f[6] + "\"/>")
  {
    MiddlePieces();
    LastPieces();
    Pieces();
    hide EndsWith, Contains, Render, Fields, PACKAGE, CHECKSUM, SIZE, LOCATION, PROVIDES;
    SlotStands(PACKAGE, Fields(a), 4, "<checksum type=\"sha256\" pkgid=\"YES\">", "</checksum>");
    SlotStands(PACKAGE, Fields(a), 5, "<size package=\"", "\" installed=");
    SlotStands(PACKAGE, Fields(a), 6, "<location href=\"packages/", "\"/>");
  }

  // What stands around the parts of what the package provides.
  lemma {:induction false} ProvidesElements(a: Artifact)
    ensures var f := Fields(a);
            && Contains(Package(a), "<rpm:entry name=\"" + f[7] + "\" flags=\"EQ\"")
            && Contains(Package(a), " ver=\"" + f[8] + "\" rel=\"")
            && Contains(Package(a), "\" rel=\"" + f[9] + "\"/>")
  {
    LastPieces();
    Pieces();
    hide EndsWith, Contains, Render, Fields, PACKAGE, PROVIDES, ENTRY, CLOSE;
    SlotStands(PACKAGE, Fields(a), 7, "<rpm:entry name=\"", "\" flags=\"EQ\"");
    SlotStands(PACKAGE, Fields(a), 8, " ver=\"", "\" rel=\"");
    SlotStands(PACKAGE, Fields(a), 9, "\" rel=\"", "\"/>");
  }
}
