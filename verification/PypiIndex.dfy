// The Simple Repository pages of the PyPI plugin and the requests that reach them.
module PypiIndex {
  import opened Text
  import opened PypiName

  datatype Artifact = Artifact(path: string, checksum: Option<string>)

  // ---- File names ----

  function ExtractName(filename: string): Option<string> {
    match StripSuffix(filename, ".whl")
    case Some(stem) => Some(FirstPart(stem, '-'))
    case None =>
      match StripSuffix(filename, ".tar.gz")
      case Some(stem) => BeforeLastHyphen(stem)
      case None =>
        match StripSuffix(filename, ".zip")
        case Some(stem) => BeforeLastHyphen(stem)
        case None => None
  }

  function BeforeLastHyphen(stem: string): Option<string> {
    match RSplitOnce(stem, '-')
    case None => None
    case Some((name, _)) => Some(name)
  }

  function ExtractVersion(filename: string): Option<string> {
    match StripSuffix(filename, ".whl")
    case Some(stem) => SecondPart(stem)
    case None =>
      match StripSuffix(filename, ".tar.gz")
      case Some(stem) => AfterLastHyphen(stem)
      case None =>
        match StripSuffix(filename, ".zip")
        case Some(stem) => AfterLastHyphen(stem)
        case None => None
  }

  function AfterLastHyphen(stem: string): Option<string> {
    match RSplitOnce(stem, '-')
    case None => None
    case Some((_, version)) => Some(version)
  }

  // parts[1] of split('-'), when there are two parts.
  function SecondPart(stem: string): Option<string> {
    var n := |FirstPart(stem, '-')|;
    if n == |stem| then None else Some(FirstPart(stem[n + 1..], '-'))
  }

  // The normalised package name an artifact is listed under, if any.
  function ListedName(a: Artifact): Option<string> {
    match ExtractName(FileName(a.path))
    case None => None
    case Some(n) => Some(Normalized(n))
  }

  // The number of parts split('-') gives.
  function Parts(s: string): (n: nat)
    ensures n >= 1
    ensures n >= 2 <==> '-' in s
  {
    if s == [] then 1 else (if s[0] == '-' then 1 else 0) + Parts(s[1..])
  }

  // Whether an upload passes: the extension is looked for in the lower-cased name.
  predicate Validate(path: string, size: nat) {
    var lower := Lower(FileName(path));
    && size > 0
    && path != []
    && (StripSuffix(lower, ".whl").Some? || StripSuffix(lower, ".tar.gz").Some? || StripSuffix(lower, ".zip").Some?)
    && (StripSuffix(lower, ".whl").Some? ==> Parts(StripSuffix(lower, ".whl").value) >= 5)
    && (StripSuffix(lower, ".tar.gz").Some? ==> '-' in StripSuffix(lower, ".tar.gz").value)
    && (StripSuffix(lower, ".tar.gz").None? && StripSuffix(lower, ".zip").Some? ==>
         '-' in StripSuffix(lower, ".zip").value)
  }

  // ---- packages.sort(); packages.dedup(); ----

  predicate Less(a: string, b: string) {
    b != [] && (a == [] || a[0] < b[0] || (a[0] == b[0] && Less(a[1..], b[1..])))
  }

  lemma {:induction false} LessIrreflexive(a: string)
    ensures !Less(a, a)
  {
    if a != [] {
      LessIrreflexive(a[1..]);
    }
  }

  lemma {:induction false} LessTotal(a: string, b: string)
    ensures Less(a, b) || a == b || Less(b, a)
  {
    if a != [] && b != [] && a[0] == b[0] {
      LessTotal(a[1..], b[1..]);
      assert a == [a[0]] + a[1..] && b == [b[0]] + b[1..];
    }
  }

  lemma {:induction false} LessTransitive(a: string, b: string, c: string)
    requires Less(a, b) && Less(b, c)
    ensures Less(a, c)
  {
    if a != [] && a[0] == b[0] && b[0] == c[0] {
      LessTransitive(a[1..], b[1..], c[1..]);
    }
  }

  predicate Increasing(names: seq<string>) {
    forall i, j | 0 <= i < j < |names| :: Less(names[i], names[j])
  }

  function Insert(name: string, names: seq<string>): seq<string> {
    if names == [] then [name]
    else if name == names[0] then names
    else if Less(name, names[0]) then [name] + names
    else [names[0]] + Insert(name, names[1..])
  }

  function SortDedup(names: seq<string>): seq<string> {
    if names == [] then [] else Insert(names[0], SortDedup(names[1..]))
  }

  lemma {:induction false} InsertKeeps(name: string, names: seq<string>)
    requires Increasing(names)
    ensures Increasing(Insert(name, names))
    ensures forall n :: n in Insert(name, names) <==> n == name || n in names
  {
    if names != [] && name != names[0] {
      if Less(name, names[0]) {
        forall j | 0 <= j < |names|
          ensures Less(name, names[j])
        {
          if j > 0 {
            LessTransitive(name, names[0], names[j]);
          }
        }
      } else {
        LessTotal(name, names[0]);
        var rest := Insert(name, names[1..]);
        InsertKeeps(name, names[1..]);
        forall j | 0 <= j < |rest|
          ensures Less(names[0], rest[j])
        {
          assert rest[j] in rest;
        }
      }
    }
  }

  lemma {:induction false} SortDedupIs(names: seq<string>)
    ensures Increasing(SortDedup(names))
    ensures forall n :: n in SortDedup(names) <==> n in names
  {
    if names != [] {
      SortDedupIs(names[1..]);
      InsertKeeps(names[0], SortDedup(names[1..]));
      assert names == [names[0]] + names[1..];
    }
  }

  // ---- The pages ----

  function ListedNames(artifacts: seq<Artifact>): seq<string> {
    if artifacts == [] then []
    else
      var rest := ListedNames(artifacts[1..]);
      match ListedName(artifacts[0])
      case None => rest
      case Some(n) => [n] + rest
  }

  function RootNames(artifacts: seq<Artifact>): seq<string> {
    SortDedup(ListedNames(artifacts))
  }

  function Matching(project: string, artifacts: seq<Artifact>): seq<Artifact> {
    if artifacts == [] then []
    else
      var rest := Matching(project, artifacts[1..]);
      if ListedName(artifacts[0]) == Some(Normalized(project)) then [artifacts[0]] + rest else rest
  }

  // The href of a file link, behind the base address: the file name and, behind a #,
  // the checksum, all as they are.
  function LinkTo(a: Artifact): string {
    "/packages/" + FileName(a.path)
    + if a.checksum.Some? && a.checksum.value != [] then "#sha256=" + a.checksum.value else []
  }

  function Links(artifacts: seq<Artifact>): (links: seq<string>)
    ensures |links| == |artifacts|
    ensures forall i | 0 <= i < |links| :: links[i] == LinkTo(artifacts[i])
  {
    if artifacts == [] then [] else [LinkTo(artifacts[0])] + Links(artifacts[1..])
  }

  // The first artifact with this file name.
  function Find(filename: string, artifacts: seq<Artifact>): Option<Artifact> {
    if artifacts == [] then None
    else if FileName(artifacts[0].path) == filename then Some(artifacts[0])
    else Find(filename, artifacts[1..])
  }

  datatype Response =
    | MethodNotAllowed
    | RootIndex(names: seq<string>)
    | ProjectPage(links: seq<string>)
    | Redirect(path: string)
    | NotFound

  function TrimSlashes(path: string): string {
    if path != [] && path[|path| - 1] == '/' then TrimSlashes(path[..|path| - 1]) else path
  }

  function StripPrefix(s: string, prefix: string): (r: Option<string>)
    ensures r.Some? ==> s == prefix + r.value
  {
    if prefix <= s then Some(s[|prefix|..]) else None
  }

  function ProjectResponse(project: string, artifacts: seq<Artifact>): Response {
    if Matching(project, artifacts) == [] then NotFound
    else ProjectPage(Links(Matching(project, artifacts)))
  }

  function DownloadResponse(filename: string, artifacts: seq<Artifact>): Response {
    match Find(filename, artifacts)
    case None => NotFound
    case Some(a) => Redirect(a.path)
  }

  predicate OneSegment(rest: Option<string>) {
    rest.Some? && '/' !in rest.value && rest.value != []
  }

  function Handle(method_: string, path: string, artifacts: seq<Artifact>): Response {
    if method_ != "GET" && method_ != "HEAD" then MethodNotAllowed
    else if path == "/simple/" || path == "/simple" || path == "/" then RootIndex(RootNames(artifacts))
    else
      var trimmed := TrimSlashes(path);
      var project, file := StripPrefix(trimmed, "/simple/"), StripPrefix(trimmed, "/packages/");
      if OneSegment(project) then ProjectResponse(project.value, artifacts)
      else if OneSegment(file) then DownloadResponse(file.value, artifacts)
      else NotFound
  }

  // ---- Agreement ----

  lemma {:induction false} RootIndexIs(artifacts: seq<Artifact>, name: string)
    ensures Increasing(RootNames(artifacts))
    ensures name in RootNames(artifacts) <==> exists i :: 0 <= i < |artifacts| && ListedName(artifacts[i]) == Some(name)
  {
    SortDedupIs(ListedNames(artifacts));
    ListedNamesIs(artifacts, name);
  }

  lemma {:induction false} ListedNamesIs(artifacts: seq<Artifact>, name: string)
    ensures name in ListedNames(artifacts) <==> exists i :: 0 <= i < |artifacts| && ListedName(artifacts[i]) == Some(name)
  {
    hide ListedName;
    if artifacts != [] {
      ListedNamesIs(artifacts[1..], name);
      if i :| 0 <= i < |artifacts[1..]| && ListedName(artifacts[1..][i]) == Some(name) {
        assert ListedName(artifacts[i + 1]) == Some(name);
      }
      if i :| 0 < i < |artifacts| && ListedName(artifacts[i]) == Some(name) {
        assert ListedName(artifacts[1..][i - 1]) == Some(name);
      }
    }
  }

  // A page holds each artifact as often as the list does, and no others.
  lemma {:induction false} PageHolds(project: string, artifacts: seq<Artifact>, a: Artifact)
    ensures multiset(Matching(project, artifacts))[a] ==
            if ListedName(a) == Some(Normalized(project)) then multiset(artifacts)[a] else 0
  {
    hide ListedName;
    if artifacts != [] {
      assert artifacts == [artifacts[0]] + artifacts[1..];
      PageHolds(project, artifacts[1..], a);
    }
  }

  // A project answers 200 exactly when its normalised name is in the root index.
  lemma {:induction false} PageExistsIff(project: string, artifacts: seq<Artifact>)
    ensures ProjectResponse(project, artifacts).ProjectPage? <==> Normalized(project) in RootNames(artifacts)
  {
    RootIndexIs(artifacts, Normalized(project));
    MatchingNonempty(project, artifacts);
  }

  lemma {:induction false} MatchingNonempty(project: string, artifacts: seq<Artifact>)
    ensures Matching(project, artifacts) != []
       <==> exists i :: 0 <= i < |artifacts| && ListedName(artifacts[i]) == Some(Normalized(project))
  {
    hide ListedName;
    if artifacts != [] {
      MatchingNonempty(project, artifacts[1..]);
      if i :| 0 <= i < |artifacts[1..]| && ListedName(artifacts[1..][i]) == Some(Normalized(project)) {
        assert ListedName(artifacts[i + 1]) == Some(Normalized(project));
      }
      if i :| 0 < i < |artifacts| && ListedName(artifacts[i]) == Some(Normalized(project)) {
        assert ListedName(artifacts[1..][i - 1]) == Some(Normalized(project));
      }
    }
  }

  // ---- Following the links ----

  lemma {:induction false} TrimSlashesStops(path: string)
    requires path != [] && path[|path| - 1] != '/'
    ensures TrimSlashes(path) == path && TrimSlashes(path + "/") == path
  {
    assert (path + "/")[..|path|] == path;
  }

  lemma {:induction false} RequestProject(project: string, artifacts: seq<Artifact>)
    requires project != [] && '/' !in project
    ensures Handle("GET", "/simple/" + project + "/", artifacts) == ProjectResponse(project, artifacts)
  {
    var path := "/simple/" + project;
    assert path[|path| - 1] == project[|project| - 1];
    TrimSlashesStops(path);
    assert path[8..] == project && "/simple/" <= path;
    assert |path + "/"| > 9;
  }

  lemma {:induction false} RequestFile(file: string, artifacts: seq<Artifact>)
    requires file != [] && '/' !in file
    ensures Handle("GET", "/packages/" + file, artifacts) == DownloadResponse(file, artifacts)
  {
    var path := "/packages/" + file;
    assert path[|path| - 1] == file[|file| - 1];
    TrimSlashesStops(path);
    assert path[10..] == file && "/packages/" <= path;
    assert path[1] == 'p' && "/simple/"[1] == 's' && "/simple"[1] == 's';
    assert !("/simple/" <= path);
  }

  lemma {:induction false} RequestEmptyProject(artifacts: seq<Artifact>)
    ensures Handle("GET", "/simple/" + "" + "/", artifacts) == NotFound
  {
    var path := "/simple/" + "" + "/";
    assert path == "/simple" + "/" + "/";
    assert path[..|path| - 1] == "/simple" + "/" && ("/simple" + "/")[..7] == "/simple";
    assert TrimSlashes(path) == TrimSlashes("/simple" + "/") == "/simple";
    assert "/packages/"[1] == 'p' && "/simple"[1] == 's';
  }

  // Every root link leads to a page, except the one of the empty name.
  lemma {:induction false} RootLinkResolves(artifacts: seq<Artifact>, name: string)
    requires name in RootNames(artifacts)
    ensures Handle("GET", "/simple/" + name + "/", artifacts).ProjectPage? <==> name != ""
  {
    hide Handle, ListedName, ProjectResponse, RootNames;
    RootIndexIs(artifacts, name);
    var i :| 0 <= i < |artifacts| && ListedName(artifacts[i]) == Some(name);
    var n := ListedNameIsNormalized(artifacts[i]);
    NormalizedSettled(n);
    NormalizeIdempotent(n);
    if name == "" {
      RequestEmptyProject(artifacts);
    } else {
      RequestProject(name, artifacts);
      PageExistsIff(name, artifacts);
    }
  }

  lemma {:induction false} ListedNameIsNormalized(a: Artifact) returns (n: string)
    requires ListedName(a).Some?
    ensures ListedName(a) == Some(Normalized(n))
  {
    n := ExtractName(FileName(a.path)).value;
  }

  // Such a name does occur: an upload that passes can be listed as "".
  lemma {:induction false} EmptyNameListed()
    ensures Validate("-1.zip", 1)
    ensures "" in RootNames([Artifact("-1.zip", None)])
  {
    var f, a := "-1.zip", Artifact("-1.zip", None);
    assert FileName(f) == f;
    assert Lower(f) == f;
    ZipSuffix("-1");
    assert "-1" + ".zip" == f;
    assert ListedName(a) == Some("") by { NamelessListed(); }
    hide *;
    RootIndexIs([a], "");
    assert ListedName([a][0]) == Some("");
  }

  // They are the ones whose extracted name has no letter or digit.
  lemma {:induction false} NamelessIff(a: Artifact)
    ensures ListedName(a) == Some("") <==>
              var name := ExtractName(FileName(a.path));
              name.Some? && forall i | 0 <= i < |name.value| :: !Alnum(name.value[i])
  {
    var name := ExtractName(FileName(a.path));
    if name.Some? {
      NormalizedEmptyIff(name.value);
    }
    hide ExtractName, FileName, Normalized;
  }

  lemma {:induction false} ZipName(stem: string)
    ensures ExtractName(stem + ".zip") == BeforeLastHyphen(stem)
  {
    ZipSuffix(stem);
    hide StripSuffix, RSplitOnce;
  }

  lemma {:induction false} NormalizedEmpty()
    ensures Normalized("") == ""
  {
    assert Lower("") == "";
  }

  lemma {:induction false} NamelessFile()
    ensures FileName("-1.zip") == "-1.zip"
  {
  }

  lemma {:induction false} NamelessStem(stem: string)
    requires stem != [] && stem[0] == '-' && '-' !in stem[1..]
    ensures BeforeLastHyphen(stem) == Some("")
  {
    assert stem == "" + ['-'] + stem[1..];
    RSplitOnceUnique("", '-', stem[1..]);
  }

  lemma {:induction false} NamelessListed()
    ensures ListedName(Artifact("-1.zip", None)) == Some("")
  {
    NamelessFile();
    var stem := "-1";
    NamelessStem(stem);
    ZipName(stem);
    NormalizedEmpty();
    hide *;
    assert stem + ".zip" == "-1.zip";
    ListedNameOf(Artifact("-1.zip", None), "");
  }

  lemma {:induction false} ListedNameOf(a: Artifact, n: string)
    requires ExtractName(FileName(a.path)) == Some(n)
    ensures ListedName(a) == Some(Normalized(n))
  {
    hide ExtractName, FileName, Normalized;
  }

  lemma {:induction false} ZipSuffix(stem: string)
    ensures StripSuffix(stem + ".zip", ".zip") == Some(stem)
    ensures StripSuffix(stem + ".zip", ".whl").None? && StripSuffix(stem + ".zip", ".tar.gz").None?
  {
    var f := stem + ".zip";
    StripSuffixOfAppend(stem, ".zip");
    assert f[|f| - 1] == 'p' && ".whl"[3] == 'l' && ".tar.gz"[6] == 'z';
  }

  // Where a client stops reading a href for the path to request: at the closing quote,
  // the fragment or the query.
  predicate Ends(c: char) {
    c == '"' || c == '#' || c == '?'
  }

  function PathOf(href: string): (p: string)
    ensures p <= href
    ensures forall i | 0 <= i < |p| :: !Ends(p[i])
  {
    if href == [] || Ends(href[0]) then [] else [href[0]] + PathOf(href[1..])
  }

  predicate Linkable(file: string) {
    forall i | 0 <= i < |file| :: !Ends(file[i])
  }

  lemma {:induction false} PathOfParts(a: string, b: string)
    requires Linkable(a)
    ensures PathOf(a + b) == a + PathOf(b)
  {
    if a == [] {
      assert a + b == b;
    } else {
      assert (a + b)[1..] == a[1..] + b;
      PathOfParts(a[1..], b);
    }
  }

  lemma {:induction false} PathOfFile(file: string, fragment: string)
    requires fragment == [] || fragment[0] == '#'
    ensures PathOf(file + fragment) == PathOf(file)
    ensures PathOf(file) == file <==> Linkable(file)
  {
    if file == [] {
      assert file + fragment == fragment;
    } else {
      assert (file + fragment)[1..] == file[1..] + fragment && (file + fragment)[0] == file[0];
      PathOfFile(file[1..], fragment);
      assert file == [file[0]] + file[1..];
    }
  }

  // What a client requests that follows the link to an artifact.
  lemma {:induction false} RequestOf(a: Artifact)
    ensures PathOf(LinkTo(a)) == "/packages/" + PathOf(FileName(a.path))
    ensures PathOf(FileName(a.path)) == FileName(a.path) <==> Linkable(FileName(a.path))
    ensures '/' !in PathOf(FileName(a.path))
  {
    var file := FileName(a.path);
    var fragment := if a.checksum.Some? && a.checksum.value != [] then "#sha256=" + a.checksum.value else [];
    PathOfFile(file, fragment);
    PrefixLinkable();
    PathOfParts("/packages/", file + fragment);
    assert LinkTo(a) == "/packages/" + (file + fragment);
    hide FileName;
  }

  lemma {:induction false} PrefixLinkable()
    ensures Linkable("/packages/")
  {
  }

  lemma {:induction false} RequestNoFile(artifacts: seq<Artifact>)
    ensures Handle("GET", "/packages/" + "", artifacts) == NotFound
  {
    var path := "/packages";
    assert path[|path| - 1] == 's' && path[1] == 'p' && "/simple/"[1] == 's' && "/simple"[1] == 's';
    TrimSlashesStops(path);
    assert "/packages/" + "" == path + "/" && (path + "/")[1] == 'p';
    assert !("/simple/" <= path) && |path| < |"/packages/"|;
    hide TrimSlashes, RootNames;
  }

  lemma {:induction false} FindIsNamed(file: string, artifacts: seq<Artifact>)
    ensures Find(file, artifacts).Some? ==> FileName(Find(file, artifacts).value.path) == file
  {
    hide FileName;
    if artifacts != [] && FileName(artifacts[0].path) != file {
      FindIsNamed(file, artifacts[1..]);
    }
  }

  // Following the file link of a listed artifact downloads an artifact of that file
  // name exactly when nothing in the name ends the path early; then it is the first.
  lemma {:induction false} FileLinkResolvesIff(project: string, artifacts: seq<Artifact>, k: nat)
    requires k < |Matching(project, artifacts)|
    ensures var a := Matching(project, artifacts)[k];
            var file := FileName(a.path);
            var answer := Handle("GET", PathOf(LinkTo(a)), artifacts);
            && ((exists b :: b in artifacts && FileName(b.path) == file && answer == Redirect(b.path)) <==> Linkable(file))
            && (Linkable(file) ==> Find(file, artifacts).Some? && answer == Redirect(Find(file, artifacts).value.path))
  {
    var a := Matching(project, artifacts)[k];
    var file := FileName(a.path);
    var cut := PathOf(file);
    hide Handle, ListedName, FileName, PathOf, Linkable, LinkTo;
    PageHolds(project, artifacts, a);
    assert a in multiset(Matching(project, artifacts));
    assert a in multiset(artifacts);
    FindSome(file, artifacts, a);
    RequestOf(a);
    FindIsNamed(cut, artifacts);
    if cut == "" {
      RequestNoFile(artifacts);
      ListedFileNonempty(a);
    } else {
      RequestFile(cut, artifacts);
    }
  }

  const HASHED := "a#b-1.zip"

  lemma {:induction false} HashedFile()
    ensures FileName(HASHED) == HASHED && Lower(HASHED) == HASHED && HASHED == "a#b-1" + ".zip"
    ensures PathOf(HASHED) == "a"
  {
    assert HASHED[1..][0] == '#';
  }

  lemma {:induction false} HashedListed()
    ensures Validate(HASHED, 1) && ListedName(Artifact(HASHED, None)).Some?
  {
    var stem := "a#b-1";
    assert stem[3] == '-' && HASHED != [];
    HashedFile();
    ZipSuffix(stem);
    ZipName(stem);
    hide FileName, Lower, StripSuffix, HASHED, Normalized, PathOf, ExtractName;
  }

  // An upload that passes, is listed, and answers 404 to its own link.
  lemma {:induction false} HashedLinkFails()
    ensures Validate(HASHED, 1) && ListedName(Artifact(HASHED, None)).Some?
    ensures Handle("GET", PathOf(LinkTo(Artifact(HASHED, None))), [Artifact(HASHED, None)]) == NotFound
  {
    var a := Artifact(HASHED, None);
    HashedFile();
    HashedListed();
    RequestOf(a);
    var cut := "a";
    assert cut != HASHED by { assert |HASHED| == 9; }
    assert cut[0] == 'a' && '/' !in cut;
    hide Handle, HASHED, FileName, PathOf, LinkTo, Validate, ListedName;
    RequestFile(cut, [a]);
    assert [a][1..] == [];
    assert Find(cut, [a]) == None;
  }

  // The artifact at n is the first of its file name, or has the path of the first.
  ghost predicate FirstOfName(artifacts: seq<Artifact>, n: nat)
    requires n < |artifacts|
  {
    exists m: nat | m <= n ::
      artifacts[m].path == artifacts[n].path
      && forall j | 0 <= j < m :: FileName(artifacts[j].path) != FileName(artifacts[n].path)
  }

  lemma {:induction false} FindIs(file: string, artifacts: seq<Artifact>, m: nat)
    requires m < |artifacts| && FileName(artifacts[m].path) == file
    requires forall j | 0 <= j < m :: FileName(artifacts[j].path) != file
    ensures Find(file, artifacts) == Some(artifacts[m])
  {
    hide FileName;
    if m > 0 {
      FindIs(file, artifacts[1..], m - 1);
    }
  }

  lemma {:induction false} FirstNamed(file: string, artifacts: seq<Artifact>, n: nat) returns (m: nat)
    requires n < |artifacts| && FileName(artifacts[n].path) == file
    ensures m <= n && FileName(artifacts[m].path) == file
    ensures forall j | 0 <= j < m :: FileName(artifacts[j].path) != file
  {
    hide FileName;
    m := 0;
    while FileName(artifacts[m].path) != file
      invariant m <= n
      invariant forall j | 0 <= j < m :: FileName(artifacts[j].path) != file
      decreases n - m
    {
      m := m + 1;
    }
  }

  // The link leads to the very artifact it stands for exactly when no other path with
  // that file name comes before it.
  lemma {:induction false} LinkIsOwnIff(artifacts: seq<Artifact>, n: nat)
    requires n < |artifacts| && ListedName(artifacts[n]).Some? && Linkable(FileName(artifacts[n].path))
    ensures Handle("GET", PathOf(LinkTo(artifacts[n])), artifacts) == Redirect(artifacts[n].path)
            <==> FirstOfName(artifacts, n)
  {
    var a := artifacts[n];
    var file := FileName(a.path);
    hide Handle, ListedName, FileName, PathOf, Linkable, LinkTo;
    ListedFileNonempty(a);
    RequestOf(a);
    RequestFile(file, artifacts);
    var m := FirstNamed(file, artifacts, n);
    FindIs(file, artifacts, m);
    if artifacts[m].path == a.path {
      assert FirstOfName(artifacts, n);
    }
    if FirstOfName(artifacts, n) {
      var i: nat :| i <= n && artifacts[i].path == a.path
                    && forall j | 0 <= j < i :: FileName(artifacts[j].path) != file;
      FindIs(file, artifacts, i);
    }
  }

  lemma {:induction false} FindSome(file: string, artifacts: seq<Artifact>, a: Artifact)
    requires a in artifacts && FileName(a.path) == file
    ensures Find(file, artifacts).Some?
    ensures Find(file, artifacts).value in artifacts && FileName(Find(file, artifacts).value.path) == file
  {
    if FileName(artifacts[0].path) != file {
      FindSome(file, artifacts[1..], a);
    }
  }

  lemma {:induction false} ListedFileNonempty(a: Artifact)
    requires ListedName(a).Some?
    ensures FileName(a.path) != []
  {}

  // An upload that passed is listed exactly when its extension is in lower case:
  // listing compares the name as written.
  lemma {:induction false} ValidatedIsListedIff(a: Artifact, size: nat)
    requires Validate(a.path, size)
    ensures ListedName(a).Some? <==>
              var f := FileName(a.path);
              StripSuffix(f, ".whl").Some? || StripSuffix(f, ".tar.gz").Some? || StripSuffix(f, ".zip").Some?
  {
    SdistHasHyphen(FileName(a.path), a.path, size);
  }

  const SHOUTED := "a-1.ZIP"

  lemma {:induction false} ShoutedFile()
    ensures FileName(SHOUTED) == SHOUTED && Lower(SHOUTED) == "a-1" + ".zip"
  {
  }

  lemma {:induction false} OtherEnd(f: string, suffix: string)
    requires f != [] && suffix != [] && f[|f| - 1] != suffix[|suffix| - 1]
    ensures StripSuffix(f, suffix).None?
  {
  }

  // Such an upload: it passes, and is on no page.
  lemma {:induction false} UpperCaseUnlisted()
    ensures Validate(SHOUTED, 1) && ListedName(Artifact(SHOUTED, None)) == None
  {
    var stem := "a-1";
    assert stem[1] == '-' && SHOUTED != [];
    assert SHOUTED[|SHOUTED| - 1] == 'P' && ".whl"[3] == 'l' && ".tar.gz"[6] == 'z' && ".zip"[3] == 'p';
    OtherEnd(SHOUTED, ".whl");
    OtherEnd(SHOUTED, ".tar.gz");
    OtherEnd(SHOUTED, ".zip");
    ShoutedFile();
    ZipSuffix(stem);
    hide FileName, Lower, StripSuffix, SHOUTED, FirstPart, RSplitOnce, Normalized;
  }

  lemma {:induction false} SdistHasHyphen(f: string, path: string, size: nat)
    requires f == FileName(path) && Validate(path, size)
    ensures StripSuffix(f, ".tar.gz").Some? ==> '-' in StripSuffix(f, ".tar.gz").value
    ensures StripSuffix(f, ".zip").Some? ==> '-' in StripSuffix(f, ".zip").value
  {
    hide Lower, FileName, StripSuffix, Parts;
    if StripSuffix(f, ".tar.gz").Some? {
      LowerSuffix(StripSuffix(f, ".tar.gz").value, ".tar.gz");
    }
    if StripSuffix(f, ".zip").Some? {
      LowerSuffix(StripSuffix(f, ".zip").value, ".zip");
      ZipSuffix(Lower(StripSuffix(f, ".zip").value));
      assert Lower(f) == Lower(StripSuffix(f, ".zip").value) + ".zip";
    }
  }

  lemma {:induction false} LowerSuffix(stem: string, suffix: string)
    requires forall i | 0 <= i < |suffix| :: ToLower(suffix[i]) == suffix[i]
    ensures Lower(stem + suffix) == Lower(stem) + suffix
    ensures StripSuffix(Lower(stem + suffix), suffix) == Some(Lower(stem))
    ensures '-' in Lower(stem) ==> '-' in stem
  {
    assert Lower(stem + suffix) == Lower(stem) + suffix;
    StripSuffixOfAppend(Lower(stem), suffix);
  }

  // ---- Name and version together ----

  // What a file name says: for a wheel the first two of its dash-separated parts, for
  // a source archive what lies around its last hyphen.
  predicate Says(filename: string, name: string, version: string) {
    match StripSuffix(filename, ".whl")
    case Some(stem) =>
      && '-' !in name && '-' !in version
      && (stem == name + ['-'] + version || name + ['-'] + version + ['-'] <= stem)
    case None => '-' !in version && Archive(filename, name + ['-'] + version)
  }

  predicate Archive(filename: string, stem: string) {
    filename == stem + ".tar.gz" || (StripSuffix(filename, ".tar.gz").None? && filename == stem + ".zip")
  }

  lemma {:induction false} FirstPartIs(s: string, part: string)
    ensures FirstPart(s, '-') == part <==> '-' !in part && (s == part || part + ['-'] <= s)
  {
    if s != [] && s[0] != '-' && part != [] && part[0] == s[0] {
      FirstPartIs(s[1..], part[1..]);
      assert part == [part[0]] + part[1..] && s == [s[0]] + s[1..];
    }
  }

  lemma {:induction false} WheelIff(stem: string, name: string, version: string)
    ensures FirstPart(stem, '-') == name && SecondPart(stem) == Some(version) <==>
            && '-' !in name && '-' !in version
            && (stem == name + ['-'] + version || name + ['-'] + version + ['-'] <= stem)
  {
    FirstPartIs(stem, name);
    var n := |name|;
    hide FirstPart;
    if n < |stem| && name + ['-'] <= stem {
      FirstPartIs(stem[n + 1..], version);
      assert stem == name + ['-'] + stem[n + 1..];
      var both := name + ['-'] + version + ['-'];
      if version + ['-'] <= stem[n + 1..] {
        assert both == name + ['-'] + (version + ['-']);
        assert both <= stem;
      }
      if both <= stem {
        assert both[n + 1..] == version + ['-'];
        assert version + ['-'] <= stem[n + 1..];
      }
    }
  }

  lemma {:induction false} ArchiveIff(stem: string, name: string, version: string)
    ensures BeforeLastHyphen(stem) == Some(name) && AfterLastHyphen(stem) == Some(version) <==>
            '-' !in version && stem == name + ['-'] + version
  {
    if '-' !in version {
      RSplitOnceUnique(name, '-', version);
    }
  }

  // The two extractors agree on one reading, and it is exactly what the name says.
  lemma {:induction false} NameAndVersionIff(filename: string, name: string, version: string)
    ensures ExtractName(filename) == Some(name) && ExtractVersion(filename) == Some(version)
            <==> Says(filename, name, version)
  {
    hide FirstPart, SecondPart, BeforeLastHyphen, AfterLastHyphen;
    var stem := name + ['-'] + version;
    match StripSuffix(filename, ".whl")
    case Some(s) => WheelIff(s, name, version);
    case None =>
      match StripSuffix(filename, ".tar.gz")
      case Some(s) =>
        ArchiveIff(s, name, version);
        SameSuffix(s, stem, ".tar.gz");
      case None =>
        if StripSuffix(filename, ".zip").Some? {
          ArchiveIff(StripSuffix(filename, ".zip").value, name, version);
          SameSuffix(StripSuffix(filename, ".zip").value, stem, ".zip");
        }
        NoSuffix(filename, stem, ".tar.gz");
        if StripSuffix(filename, ".zip").None? {
          NoSuffix(filename, stem, ".zip");
        }
  }

  lemma {:induction false} SameSuffix(a: string, b: string, suffix: string)
    ensures a + suffix == b + suffix <==> a == b
  {
    assert (a + suffix)[..|a|] == a && (b + suffix)[..|b|] == b;
  }

  lemma {:induction false} NoSuffix(s: string, stem: string, suffix: string)
    requires StripSuffix(s, suffix).None?
    ensures s != stem + suffix
  {
    StripSuffixOfAppend(stem, suffix);
  }
}
