// The answers of the PyPI plugin, request by request.
module PypiPages {
  import opened Text
  import opened PypiName
  import opened PypiIndex

  predicate Reads(verb: string) {
    verb == "GET" || verb == "HEAD"
  }

  predicate RootPath(path: string) {
    path == "/simple/" || path == "/simple" || path == "/"
  }

  lemma {:induction false} HeadIsGet(path: string, artifacts: seq<Artifact>)
    ensures Handle("HEAD", path, artifacts) == Handle("GET", path, artifacts)
  {
    hide TrimSlashes, StripPrefix, RootNames, ProjectResponse, DownloadResponse, OneSegment;
  }

  lemma {:induction false} OtherVerbs(verb: string, path: string, artifacts: seq<Artifact>)
    ensures Handle(verb, path, artifacts) == MethodNotAllowed <==> !Reads(verb)
  {
    hide TrimSlashes, StripPrefix, RootNames, Links, Matching, Find;
  }

  lemma {:induction false} RootAnswerIs(verb: string, path: string, artifacts: seq<Artifact>)
    requires Reads(verb) && RootPath(path)
    ensures Handle(verb, path, artifacts) == RootIndex(RootNames(artifacts))
  {
    hide TrimSlashes, StripPrefix, RootNames, ProjectResponse, DownloadResponse, OneSegment;
  }

  // The root request answers the index: strictly sorted, and with exactly the names
  // some artifact is listed under.
  lemma {:induction false} RootAnswer(verb: string, path: string, artifacts: seq<Artifact>, name: string)
    requires Reads(verb) && RootPath(path)
    ensures Handle(verb, path, artifacts).RootIndex? && Increasing(Handle(verb, path, artifacts).names)
    ensures name in Handle(verb, path, artifacts).names
            <==> exists i :: 0 <= i < |artifacts| && ListedName(artifacts[i]) == Some(name)
  {
    RootAnswerIs(verb, path, artifacts);
    RootIndexIs(artifacts, name);
    hide Handle, RootNames, ListedName;
  }

  // ---- Project pages ----

  function ProjectPath(project: string, slash: bool): string {
    "/simple/" + project + if slash then "/" else ""
  }

  lemma {:induction false} ProjectAnswerIs(verb: string, project: string, slash: bool, artifacts: seq<Artifact>)
    requires Reads(verb) && project != [] && '/' !in project
    ensures Handle(verb, ProjectPath(project, slash), artifacts) == ProjectResponse(project, artifacts)
  {
    HeadIsGet(ProjectPath(project, slash), artifacts);
    if slash {
      RequestProject(project, artifacts);
      hide Handle, ProjectResponse;
      assert ProjectPath(project, slash) == "/simple/" + project + "/";
    } else {
      RequestBare(project, artifacts);
      hide Handle, ProjectResponse;
      assert ProjectPath(project, slash) == "/simple/" + project;
    }
  }

  lemma {:induction false} RequestBare(project: string, artifacts: seq<Artifact>)
    requires project != [] && '/' !in project
    ensures Handle("GET", "/simple/" + project, artifacts) == ProjectResponse(project, artifacts)
  {
    var path := "/simple/" + project;
    assert path[|path| - 1] == project[|project| - 1] && path[7] == '/';
    TrimSlashesStops(path);
    assert path[8..] == project && "/simple/" <= path;
    assert |path| > 8;
    hide ProjectResponse, TrimSlashes;
  }

  // A project answers with a page exactly when its normalised name is in the index that
  // the root request answers.
  lemma {:induction false} PageIffInRoot(verb: string, project: string, slash: bool, path: string, artifacts: seq<Artifact>)
    requires Reads(verb) && project != [] && '/' !in project && RootPath(path)
    ensures Handle(verb, path, artifacts).RootIndex?
    ensures Handle(verb, ProjectPath(project, slash), artifacts).ProjectPage?
            <==> Normalized(project) in Handle(verb, path, artifacts).names
  {
    RootAnswerIs(verb, path, artifacts);
    ProjectAnswerIs(verb, project, slash, artifacts);
    PageExistsIff(project, artifacts);
    hide Handle, RootNames, Normalized, ProjectResponse;
  }

  // A name in the index leads to a page exactly when it is not empty.
  lemma {:induction false} RootLinkIff(verb: string, path: string, artifacts: seq<Artifact>, name: string)
    requires Reads(verb) && RootPath(path)
    requires Handle(verb, path, artifacts).RootIndex? && name in Handle(verb, path, artifacts).names
    ensures Handle(verb, ProjectPath(name, true), artifacts).ProjectPage? <==> name != ""
  {
    RootAnswerIs(verb, path, artifacts);
    HeadIsGet(ProjectPath(name, true), artifacts);
    hide Handle, RootNames;
    RootLinkResolves(artifacts, name);
    assert ProjectPath(name, true) == "/simple/" + name + "/";
  }

  // The links of a page are those of the artifacts listed under the project, each as
  // often as in the list, and in its order.
  ghost predicate PageOf(page: seq<Artifact>, project: string, artifacts: seq<Artifact>) {
    if artifacts == [] then page == []
    else if ListedName(artifacts[0]) == Some(Normalized(project)) then
      page != [] && page[0] == artifacts[0] && PageOf(page[1..], project, artifacts[1..])
    else PageOf(page, project, artifacts[1..])
  }

  lemma {:induction false} MatchingIsPage(project: string, artifacts: seq<Artifact>)
    ensures PageOf(Matching(project, artifacts), project, artifacts)
  {
    hide ListedName, Normalized;
    if artifacts != [] {
      MatchingIsPage(project, artifacts[1..]);
    }
  }

  lemma {:induction false} PageAnswer(verb: string, project: string, slash: bool, artifacts: seq<Artifact>)
    returns (page: seq<Artifact>)
    requires Reads(verb) && project != [] && '/' !in project
    ensures PageOf(page, project, artifacts)
    ensures Handle(verb, ProjectPath(project, slash), artifacts) ==
            if page == [] then NotFound else ProjectPage(seq(|page|, i requires 0 <= i < |page| => LinkTo(page[i])))
  {
    page := Matching(project, artifacts);
    ProjectAnswerIs(verb, project, slash, artifacts);
    MatchingIsPage(project, artifacts);
    hide Handle, PageOf, Matching, LinkTo;
    assert Links(page) == seq(|page|, i requires 0 <= i < |page| => LinkTo(page[i]));
  }

  // What a link shows besides the file: the checksum, if there is one.
  lemma {:induction false} LinkShows(a: Artifact)
    requires Linkable(FileName(a.path))
    ensures PathOf(LinkTo(a)) == "/packages/" + FileName(a.path)
    ensures PathOf(LinkTo(a)) <= LinkTo(a)
    ensures LinkTo(a)[|PathOf(LinkTo(a))|..] ==
            if a.checksum.Some? && a.checksum.value != "" then "#sha256=" + a.checksum.value else ""
  {
    RequestOf(a);
    hide FileName, PathOf;
  }

  // ---- Everything else ----

  predicate Segment(s: string) {
    s != [] && '/' !in s
  }

  lemma {:induction false} UnknownPath(verb: string, path: string, artifacts: seq<Artifact>)
    requires Reads(verb) && !RootPath(path)
    requires forall s | Segment(s) :: TrimSlashes(path) != "/simple/" + s && TrimSlashes(path) != "/packages/" + s
    ensures Handle(verb, path, artifacts) == NotFound
  {
    var trimmed := TrimSlashes(path);
    var project, file := StripPrefix(trimmed, "/simple/"), StripPrefix(trimmed, "/packages/");
    assert OneSegment(project) ==> Segment(project.value);
    assert OneSegment(file) ==> Segment(file.value);
    hide TrimSlashes, RootNames, ProjectResponse, DownloadResponse;
  }

  // ---- What an upload must look like ----

  lemma {:induction false} PartsAre(s: string)
    ensures Parts(s) == 1 + multiset(s)['-']
  {
    if s != [] {
      PartsAre(s[1..]);
      assert s == [s[0]] + s[1..];
    }
  }

  lemma {:induction false} WheelStem(stem: string)
    ensures StripSuffix(stem + ".whl", ".whl") == Some(stem)
    ensures StripSuffix(stem + ".whl", ".tar.gz").None? && StripSuffix(stem + ".whl", ".zip").None?
  {
    StripSuffixOfAppend(stem, ".whl");
    OtherEnd(stem + ".whl", ".tar.gz");
    OtherEnd(stem + ".whl", ".zip");
  }

  lemma {:induction false} TarStem(stem: string)
    ensures StripSuffix(stem + ".tar.gz", ".tar.gz") == Some(stem) && StripSuffix(stem + ".tar.gz", ".whl").None?
  {
    StripSuffixOfAppend(stem, ".tar.gz");
    OtherEnd(stem + ".tar.gz", ".whl");
  }

  lemma {:induction false} HyphenCounts(s: string)
    ensures multiset(s)['-'] >= 1 <==> '-' in s
  {
  }

  // A wheel with four hyphens at least, or a source archive with one.
  predicate WellNamed(lower: string, stem: string) {
    || (lower == stem + ".whl" && multiset(stem)['-'] >= 4)
    || (lower == stem + ".tar.gz" && multiset(stem)['-'] >= 1)
    || (lower == stem + ".zip" && multiset(stem)['-'] >= 1)
  }

  lemma {:induction false} WellNamedIs(lower: string, stem: string)
    requires WellNamed(lower, stem)
    ensures var whl, tar, zip := StripSuffix(lower, ".whl"), StripSuffix(lower, ".tar.gz"), StripSuffix(lower, ".zip");
            || (whl == Some(stem) && tar.None? && zip.None? && Parts(stem) >= 5)
            || (whl.None? && tar == Some(stem) && '-' in stem)
            || (whl.None? && tar.None? && zip == Some(stem) && '-' in stem)
  {
    WheelStem(stem);
    TarStem(stem);
    ZipSuffix(stem);
    PartsAre(stem);
    HyphenCounts(stem);
    hide StripSuffix, Parts;
  }

  lemma {:induction false} ValidNames(path: string, size: nat) returns (stem: string)
    requires Validate(path, size)
    ensures WellNamed(Lower(FileName(path)), stem)
  {
    var lower := Lower(FileName(path));
    hide Lower, FileName, Parts;
    stem := if StripSuffix(lower, ".whl").Some? then StripSuffix(lower, ".whl").value
            else if StripSuffix(lower, ".tar.gz").Some? then StripSuffix(lower, ".tar.gz").value
            else StripSuffix(lower, ".zip").value;
    PartsAre(stem);
    HyphenCounts(stem);
    hide StripSuffix;
  }

  // An upload passes exactly if it has content, a path, and, cases aside, such a name.
  lemma {:induction false} ValidIff(path: string, size: nat)
    ensures Validate(path, size) <==> size > 0 && path != "" && exists stem :: WellNamed(Lower(FileName(path)), stem)
  {
    var lower := Lower(FileName(path));
    if Validate(path, size) {
      var stem := ValidNames(path, size);
    }
    if stem :| WellNamed(lower, stem) {
      WellNamedIs(lower, stem);
    }
    hide Lower, FileName, Parts, StripSuffix;
  }
}
