// RPM file names: name-version-release.arch.rpm, taken apart from the right.
module RpmName {
  import opened Text

  datatype Info = Info(name: Option<string>, version: Option<string>, release: Option<string>, arch: Option<string>)

  function Optional(separator: char, part: Option<string>): string {
    match part
    case None => ""
    case Some(p) => [separator] + p
  }

  predicate Free(part: Option<string>, c: char) {
    part.Some? ==> c !in part.value
  }

  // The text before the last separator, and the part behind it if there is one.
  function Cut(s: string, c: char): (r: (string, Option<string>))
    ensures s == r.0 + Optional(c, r.1)
    ensures Free(r.1, c) && (r.1.None? ==> c !in r.0)
  {
    match RSplitOnce(s, c)
    case None => (s, None)
    case Some((before, part)) => (before, Some(part))
  }

  function Parse(filename: string): Info {
    match StripSuffix(filename, ".rpm")
    case None => Info(None, None, None, None)
    case Some(stem) =>
      var (beforeArch, arch) := Cut(stem, '.');
      var (beforeRelease, release) := Cut(beforeArch, '-');
      var (name, version) := Cut(beforeRelease, '-');
      Info(Some(name), version, release, arch)
  }

  function ExtractVersion(path: string): Option<string> {
    var info := Parse(FileName(path));
    match (info.version, info.release)
    case (Some(v), Some(r)) => Some(v + "-" + r)
    case (Some(v), None) => Some(v)
    case _ => None
  }

  // ---- The printer ----

  function Print(info: Info): string
    requires info.name.Some?
  {
    info.name.value + Optional('-', info.version) + Optional('-', info.release) + Optional('.', info.arch) + ".rpm"
  }

  // What a parse can return: the parts are free of the separators to their left,
  // and a part is missing only when no separator is left for it.
  ghost predicate Canonical(info: Info) {
    && info.name.Some?
    && (info.version.Some? ==> info.release.Some?)
    && (info.version.None? ==> '-' !in info.name.value)
    && Free(info.version, '-') && Free(info.release, '-') && Free(info.arch, '.')
    && (info.arch.None? ==>
         '.' !in info.name.value && Free(info.version, '.') && Free(info.release, '.'))
  }

  lemma {:induction false} CutUnique(before: string, c: char, part: Option<string>)
    requires Free(part, c) && (part.None? ==> c !in before)
    ensures Cut(before + Optional(c, part), c) == (before, part)
  {
    match part
    case None => assert before + "" == before;
    case Some(p) =>
      assert before + ([c] + p) == before + [c] + p;
      RSplitOnceUnique(before, c, p);
  }

  lemma {:induction false} PrintOfParse(filename: string)
    requires StripSuffix(filename, ".rpm").Some?
    ensures Canonical(Parse(filename))
    ensures Print(Parse(filename)) == filename
  {
    hide Cut, StripSuffix;
    var info := Parse(filename);
    var beforeRelease := info.name.value + Optional('-', info.version);
    var beforeArch := beforeRelease + Optional('-', info.release);
    assert StripSuffix(filename, ".rpm").value == beforeArch + Optional('.', info.arch);
    if info.arch.None? {
      assert '.' !in beforeArch;
      forall c | c in info.name.value || c in Optional('-', info.version) || c in Optional('-', info.release)
        ensures c in beforeArch
      {}
    }
  }

  lemma {:induction false} ParseOfPrint(info: Info)
    requires Canonical(info)
    ensures Parse(Print(info)) == info
  {
    hide Cut, StripSuffix;
    var beforeRelease := info.name.value + Optional('-', info.version);
    var beforeArch := beforeRelease + Optional('-', info.release);
    StripSuffixOfAppend(beforeArch + Optional('.', info.arch), ".rpm");
    CutUnique(beforeArch, '.', info.arch);
    CutUnique(beforeRelease, '-', info.release);
    CutUnique(info.name.value, '-', info.version);
  }

  // Parsing gives exactly the one canonical reading of the name.
  lemma {:induction false} ParseIff(filename: string, info: Info)
    requires StripSuffix(filename, ".rpm").Some?
    ensures Parse(filename) == info <==> Canonical(info) && Print(info) == filename
  {
    PrintOfParse(filename);
    if Canonical(info) {
      ParseOfPrint(info);
    }
  }

  lemma {:induction false} ConventionalName(name: string, version: string, release: string, arch: string)
    requires '-' !in version && '-' !in release && '.' !in arch
    ensures Parse(name + "-" + version + "-" + release + "." + arch + ".rpm")
         == Info(Some(name), Some(version), Some(release), Some(arch))
  {
    var info := Info(Some(name), Some(version), Some(release), Some(arch));
    ParseOfPrint(info);
    assert Print(info) == name + "-" + version + "-" + release + "." + arch + ".rpm";
  }

  // A parsed version brings a release, so the version-only arm is never taken:
  // the result is what lies between the second-last hyphen and the arch, or nothing.
  lemma {:induction false} ExtractVersionShape(path: string)
    ensures var info := Parse(FileName(path));
            && (info.version.Some? ==> info.release.Some?)
            && (ExtractVersion(path).Some? ==>
                 FileName(path) == info.name.value + "-" + ExtractVersion(path).value + Optional('.', info.arch) + ".rpm")
  {
    hide Parse, FileName;
    var info := Parse(FileName(path));
    if info.version.Some? {
      ParsedIsRpm(FileName(path));
      PrintOfParse(FileName(path));
    }
  }

  lemma {:induction false} ParsedIsRpm(filename: string)
    requires Parse(filename).version.Some?
    ensures StripSuffix(filename, ".rpm").Some?
  {}

  // The version of every conventionally named package, in whatever directory.
  lemma {:induction false} ConventionalVersion(path: string, name: string, version: string, release: string, arch: string)
    requires '-' !in version && '-' !in release && '.' !in arch
    requires FileName(path) == name + "-" + version + "-" + release + "." + arch + ".rpm"
    ensures ExtractVersion(path) == Some(version + "-" + release)
  {
    ConventionalName(name, version, release, arch);
    hide Parse, FileName;
  }

  // A version is found exactly if the file is a package whose name without extension
  // and arch holds two hyphens; it is what follows the second last.
  lemma {:induction false} ExtractVersionIff(path: string, found: string)
    ensures ExtractVersion(path) == Some(found) <==>
            exists name: string, version, release, arch: Option<string> ::
              && found == version + ['-'] + release
              && Canonical(Info(Some(name), Some(version), Some(release), arch))
              && FileName(path) == Print(Info(Some(name), Some(version), Some(release), arch))
  {
    var f := FileName(path);
    hide FileName, Parse, Canonical, Print;
    var info := Parse(f);
    if ExtractVersion(path) == Some(found) {
      assert info.version.Some?;
      ParsedIsRpm(f);
      PrintOfParse(f);
      CanonicalHas(info);
      assert info == Info(Some(info.name.value), Some(info.version.value), Some(info.release.value), info.arch);
    }
    if name: string, version, release, arch: Option<string> :|
       && found == version + ['-'] + release
       && Canonical(Info(Some(name), Some(version), Some(release), arch))
       && f == Print(Info(Some(name), Some(version), Some(release), arch)) {
      ParseOfPrint(Info(Some(name), Some(version), Some(release), arch));
    }
  }

  lemma {:induction false} CanonicalHas(info: Info)
    requires Canonical(info)
    ensures info.name.Some? && (info.version.Some? ==> info.release.Some?)
  {
  }
}
