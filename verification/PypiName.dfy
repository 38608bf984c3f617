// Normalisation of Python package names in the PyPI plugin, on ASCII text.
module PypiName {
  import opened Text

  predicate Alnum(c: char) {
    '0' <= c <= '9' || 'A' <= c <= 'Z' || 'a' <= c <= 'z'
  }

  const UPPER := "ABCDEFGHIJKLMNOPQRSTUVWXYZ"
  const LOWER := "abcdefghijklmnopqrstuvwxyz"

  // The characters that count, written out, and the lower case of each.
  lemma {:induction false} AlphabetIs(c: char)
    ensures Alnum(c) <==> c in UPPER || c in LOWER || c in "0123456789"
    ensures c !in UPPER ==> ToLower(c) == c
    ensures forall i | 0 <= i < 26 :: UPPER[i] == c ==> ToLower(c) == LOWER[i]
  {
    LettersAre();
    hide UPPER, LOWER;
    if 'A' <= c <= 'Z' {
      assert UPPER[c as int - 'A' as int] == c;
    }
    if 'a' <= c <= 'z' {
      assert LOWER[c as int - 'a' as int] == c;
    }
  }

  lemma {:induction false} LettersAre()
    ensures |UPPER| == |LOWER| == 26
    ensures forall i | 0 <= i < 26 :: UPPER[i] as int == 'A' as int + i && LOWER[i] as int == 'a' as int + i
  {
    assert UPPER[0] == 'A';
  }

  // trim_matches('-')
  function Trim(s: string): string
    decreases |s|
  {
    if s == [] then []
    else if s[0] == '-' then Trim(s[1..])
    else if s[|s| - 1] == '-' then Trim(s[..|s| - 1])
    else s
  }

  // What the loop still has to push when `text` is left to read.
  function Emit(text: string, prevWasSeparator: bool): string {
    if text == [] then []
    else if Alnum(text[0]) then [text[0]] + Emit(text[1..], false)
    else if !prevWasSeparator then ['-'] + Emit(text[1..], true)
    else Emit(text[1..], true)
  }

  // ---- The specification: alphanumeric runs joined by single hyphens ----

  function Runs(s: string): (runs: seq<string>)
    ensures s != [] && Alnum(s[0]) ==> runs != []
  {
    if s == [] then []
    else if !Alnum(s[0]) then Runs(s[1..])
    else if |s| == 1 || !Alnum(s[1]) then [[s[0]]] + Runs(s[1..])
    else
      var rest := Runs(s[1..]);
      [[s[0]] + rest[0]] + rest[1..]
  }

  function Normalized(name: string): string {
    Join('-', Runs(Lower(name)))
  }

  method Normalize(name: string) returns (r: string)
    ensures r == Normalized(name)
  {
    hide Lower, Runs, Join, Alnum, Trim;
    var lower := Lower(name);
    var result := [];
    var prevWasSeparator := false;
    assert lower[0..] == lower;
    for i := 0 to |lower|
      invariant result + Emit(lower[i..], prevWasSeparator) == Emit(lower, false)
    {
      var ch := lower[i];
      assert lower[i..][0] == ch && lower[i..][1..] == lower[i + 1..];
      if Alnum(ch) {
        prevWasSeparator := false;
        result := result + [ch];
      } else if !prevWasSeparator {
        prevWasSeparator := true;
        result := result + ['-'];
      }
    }
    assert result == Emit(lower, false);
    r := Trim(result);
    TrimEmit(lower);
  }

  function Lead(s: string, prev: bool): string {
    if s != [] && !Alnum(s[0]) && !prev then ['-'] else []
  }

  function Trail(s: string): string {
    if s != [] && !Alnum(s[|s| - 1]) then ['-'] else []
  }

  lemma {:induction false} EmitShape(s: string, prev: bool)
    ensures Runs(s) != [] ==> Emit(s, prev) == Lead(s, prev) + Join('-', Runs(s)) + Trail(s)
    ensures Runs(s) == [] ==> Emit(s, prev) == Lead(s, prev)
  {
    if s == [] {
    } else if !Alnum(s[0]) {
      EmitShape(s[1..], true);
      EmitShapeAfterSeparator(s, prev);
    } else if |s| == 1 {
      OneRun(s, prev);
    } else {
      EmitShape(s[1..], false);
      EmitShapeAfterAlnum(s, prev);
    }
  }

  lemma {:induction false} OneRun(s: string, prev: bool)
    requires |s| == 1 && Alnum(s[0])
    ensures Runs(s) == [s] && Emit(s, prev) == s && Lead(s, prev) + Join('-', Runs(s)) + Trail(s) == s
  {
    assert s == [s[0]];
  }

  lemma {:induction false} EmitShapeAfterSeparator(s: string, prev: bool)
    requires s != [] && !Alnum(s[0])
    requires Runs(s[1..]) != [] ==> Emit(s[1..], true) == Lead(s[1..], true) + Join('-', Runs(s[1..])) + Trail(s[1..])
    requires Runs(s[1..]) == [] ==> Emit(s[1..], true) == Lead(s[1..], true)
    ensures Runs(s) != [] ==> Emit(s, prev) == Lead(s, prev) + Join('-', Runs(s)) + Trail(s)
    ensures Runs(s) == [] ==> Emit(s, prev) == Lead(s, prev)
  {
    hide *;
    var tail := s[1..];
    SeparatorThen(s, prev);
    Assoc(Lead(s, prev), [], Join('-', Runs(tail)), Trail(tail));
    assert Lead(s, prev) + [] == Lead(s, prev);
  }

  lemma {:induction false} SeparatorThen(s: string, prev: bool)
    requires s != [] && !Alnum(s[0])
    ensures Runs(s) == Runs(s[1..])
    ensures Emit(s, prev) == Lead(s, prev) + Emit(s[1..], true) && Lead(s[1..], true) == []
    ensures Runs(s) != [] ==> Trail(s) == Trail(s[1..])
  {
    assert s[1..] == [] ==> Runs(s[1..]) == [];
  }

  lemma {:induction false} EmitShapeAfterAlnum(s: string, prev: bool)
    requires |s| > 1 && Alnum(s[0])
    requires Runs(s[1..]) != [] ==> Emit(s[1..], false) == Lead(s[1..], false) + Join('-', Runs(s[1..])) + Trail(s[1..])
    requires Runs(s[1..]) == [] ==> Emit(s[1..], false) == Lead(s[1..], false)
    ensures Runs(s) != [] && Emit(s, prev) == Join('-', Runs(s)) + Trail(s)
  {
    var c, tail := [s[0]], s[1..];
    var runs, rest, trail := Runs(s), Runs(tail), Trail(tail);
    assert Emit(s, prev) == c + Emit(tail, false) && Trail(s) == trail;
    OneRunThen(s);
    hide *;
    if rest == [] {
      AllSeparators(tail);
      TrailSeparator(tail);
      LeadOf(tail);
      JoinOne(c);
    } else if Alnum(s[1]) {
      LeadOf(tail);
      JoinExtend(c, rest);
      Assoc(c, [], Join('-', rest), trail);
    } else {
      LeadOf(tail);
      JoinMore(c, rest);
      Assoc(c, ['-'], Join('-', rest), trail);
    }
  }

  lemma {:induction false} LeadOf(s: string)
    requires s != []
    ensures Lead(s, false) == if Alnum(s[0]) then [] else ['-']
  {}

  lemma {:induction false} Assoc(a: string, b: string, c: string, d: string)
    ensures a + (b + c + d) == (a + b + c) + d
    ensures b == [] ==> a + b + c == a + c
  {}

  lemma {:induction false} OneRunThen(s: string)
    requires |s| > 1 && Alnum(s[0])
    ensures Runs(s) == if Alnum(s[1]) then [[s[0]] + Runs(s[1..])[0]] + Runs(s[1..])[1..] else [[s[0]]] + Runs(s[1..])
  {}

  lemma {:induction false} TrailSeparator(s: string)
    requires s != [] && !Alnum(s[|s| - 1])
    ensures Trail(s) == ['-']
  {}

  lemma {:induction false} JoinOne(run: string)
    ensures Join('-', [run]) == run
  {}

  lemma {:induction false} JoinExtend(c: string, runs: seq<string>)
    requires runs != []
    ensures Join('-', [c + runs[0]] + runs[1..]) == c + Join('-', runs)
  {
    assert ([c + runs[0]] + runs[1..])[1..] == runs[1..];
  }

  lemma {:induction false} JoinMore(c: string, runs: seq<string>)
    requires runs != []
    ensures Join('-', [c] + runs) == c + ['-'] + Join('-', runs)
  {
    assert ([c] + runs)[1..] == runs;
  }

  lemma {:induction false} AllSeparators(s: string)
    requires Runs(s) == [] && s != []
    ensures !Alnum(s[|s| - 1])
  {
    if |s| > 1 {
      AllSeparators(s[1..]);
    }
  }

  predicate IsRun(run: string) {
    run != [] && forall i | 0 <= i < |run| :: Alnum(run[i])
  }

  predicate AreRuns(runs: seq<string>) {
    forall k | 0 <= k < |runs| :: IsRun(runs[k])
  }

  lemma {:induction false} RunsAreRuns(s: string)
    ensures AreRuns(Runs(s))
  {
    if s != [] {
      RunsAreRuns(s[1..]);
    }
  }

  lemma {:induction false} JoinEnds(runs: seq<string>)
    requires AreRuns(runs) && runs != []
    ensures Join('-', runs) != [] && Alnum(Join('-', runs)[0]) && Alnum(Join('-', runs)[|Join('-', runs)| - 1])
  {
    assert IsRun(runs[0]);
    if |runs| > 1 {
      assert AreRuns(runs[1..]) by {
        forall k | 0 <= k < |runs[1..]| ensures IsRun(runs[1..][k]) { assert IsRun(runs[k + 1]); }
      }
      JoinEnds(runs[1..]);
    }
  }

  lemma {:induction false} TrimAround(lead: string, body: string, trail: string)
    requires lead == [] || lead == ['-']
    requires trail == [] || trail == ['-']
    requires body != [] && body[0] != '-' && body[|body| - 1] != '-'
    ensures Trim(lead + body + trail) == body
  {
    var rest := body + trail;
    assert Trim(rest) == body by {
      if trail == ['-'] {
        assert rest[..|rest| - 1] == body && rest[|rest| - 1] == '-' && rest[0] != '-';
      } else {
        assert rest == body;
      }
    }
    if lead == ['-'] {
      assert (lead + body + trail)[1..] == rest;
    } else {
      assert lead + body + trail == rest;
    }
  }

  lemma {:induction false} TrimEmit(s: string)
    ensures Trim(Emit(s, false)) == Join('-', Runs(s))
  {
    EmitShape(s, false);
    RunsAreRuns(s);
    if Runs(s) != [] {
      JoinEnds(Runs(s));
      TrimAround(Lead(s, false), Join('-', Runs(s)), Trail(s));
    }
  }

  // ---- Idempotence, and when two names agree ----

  lemma {:induction false} RunsOfRunThen(run: string, rest: string)
    requires IsRun(run) && (rest == [] || !Alnum(rest[0]))
    ensures Runs(run + rest) == [run] + Runs(rest)
    decreases |run|
  {
    assert Alnum(run[0]);
    if |run| == 1 {
      assert (run + rest)[1..] == rest && run == [run[0]];
    } else {
      var tail := run[1..];
      assert IsRun(tail) by {
        forall i | 0 <= i < |tail| ensures Alnum(tail[i]) { assert Alnum(run[i + 1]); }
      }
      assert Alnum(run[1]);
      assert (run + rest)[1..] == tail + rest && (run + rest)[1] == run[1];
      RunsOfRunThen(tail, rest);
      assert run == [run[0]] + tail;
    }
  }

  lemma {:induction false} RunsOfJoin(runs: seq<string>)
    requires AreRuns(runs)
    ensures Runs(Join('-', runs)) == runs
  {
    if runs != [] {
      assert IsRun(runs[0]);
      var others := runs[1..];
      assert AreRuns(others) by {
        forall k | 0 <= k < |others| ensures IsRun(others[k]) { assert IsRun(runs[k + 1]); }
      }
      RunsOfJoin(others);
      var rest := if others == [] then [] else ['-'] + Join('-', others);
      assert Join('-', runs) == runs[0] + rest;
      RunsOfRunThen(runs[0], rest);
      if others != [] {
        assert rest[1..] == Join('-', others);
      }
      assert runs == [runs[0]] + others;
    }
  }

  // Two names are the same package exactly when their runs agree, ignoring case.
  lemma {:induction false} SamePackage(a: string, b: string)
    ensures Normalized(a) == Normalized(b) <==> Runs(Lower(a)) == Runs(Lower(b))
  {
    RunsAreRuns(Lower(a));
    RunsAreRuns(Lower(b));
    RunsOfJoin(Runs(Lower(a)));
    RunsOfJoin(Runs(Lower(b)));
  }

  predicate Settled(s: string) {
    forall i | 0 <= i < |s| :: s[i] == '-' || (Alnum(s[i]) && ToLower(s[i]) == s[i])
  }

  lemma {:induction false} EmitSettled(s: string, prev: bool)
    requires forall i | 0 <= i < |s| :: ToLower(s[i]) == s[i]
    ensures Settled(Emit(s, prev))
  {
    if s != [] {
      EmitSettled(s[1..], !Alnum(s[0]));
    }
  }

  lemma {:induction false} TrimSettled(s: string)
    requires Settled(s)
    ensures Settled(Trim(s))
    decreases |s|
  {
    if s == [] {
    } else if s[0] == '-' {
      TrimSettled(s[1..]);
    } else if s[|s| - 1] == '-' {
      TrimSettled(s[..|s| - 1]);
    }
  }

  lemma {:induction false} NormalizedSettled(name: string)
    ensures Settled(Normalized(name))
    ensures Normalized(name) != [] ==> Alnum(Normalized(name)[0])
  {
    EmitSettled(Lower(name), false);
    TrimSettled(Emit(Lower(name), false));
    TrimEmit(Lower(name));
    RunsAreRuns(Lower(name));
    if Runs(Lower(name)) != [] {
      JoinEnds(Runs(Lower(name)));
    }
  }

  lemma {:induction false} NormalizeIdempotent(name: string)
    ensures Normalized(Normalized(name)) == Normalized(name)
  {
    var n := Normalized(name);
    NormalizedSettled(name);
    assert Lower(n) == n;
    RunsAreRuns(Lower(name));
    RunsOfJoin(Runs(Lower(name)));
  }

  // ---- PEP 503, "Normalized Names": re.sub(r"[-_.]+", "-", name).lower() ----

  predicate Separator(c: char) {
    c == '-' || c == '_' || c == '.'
  }

  function SkipSeparators(s: string): (r: string)
    ensures |r| <= |s|
  {
    if s != [] && Separator(s[0]) then SkipSeparators(s[1..]) else s
  }

  function Squeeze(s: string): string
    decreases |s|
  {
    if s == [] then []
    else if Separator(s[0]) then ['-'] + Squeeze(SkipSeparators(s[1..]))
    else [s[0]] + Squeeze(s[1..])
  }

  function Pep503(name: string): string {
    Lower(Squeeze(name))
  }

  predicate PepName(s: string) {
    forall i | 0 <= i < |s| :: Alnum(s[i]) || Separator(s[i])
  }

  lemma {:induction false} SqueezeIsEmit(s: string)
    requires PepName(s)
    ensures Lower(Squeeze(s)) == Emit(Lower(s), false)
    ensures Lower(Squeeze(SkipSeparators(s))) == Emit(Lower(s), true)
    decreases |s|
  {
    if s != [] {
      SqueezeIsEmit(s[1..]);
      assert Lower(s)[1..] == Lower(s[1..]) && Lower(s)[0] == ToLower(s[0]);
      var next := if Separator(s[0]) then SkipSeparators(s[1..]) else s[1..];
      var head := if Separator(s[0]) then '-' else s[0];
      assert Lower([head] + Squeeze(next)) == [ToLower(head)] + Lower(Squeeze(next));
    }
  }

  // On the names PEP 503 is about, the two rules agree exactly when the name is
  // empty or starts and ends with a letter or digit.
  lemma {:induction false} AgreesWithPep503(name: string)
    requires PepName(name)
    ensures Normalized(name) == Pep503(name)
       <==> name == "" || (Alnum(name[0]) && Alnum(name[|name| - 1]))
  {
    var s := Lower(name);
    SqueezeIsEmit(name);
    EmitShape(s, false);
    if name != "" {
      assert Alnum(s[0]) == Alnum(name[0]) && Alnum(s[|s| - 1]) == Alnum(name[|name| - 1]);
      if Runs(s) != [] {
        var body := Join('-', Runs(s));
        assert |Pep503(name)| == |Lead(s, false)| + |body| + |Trail(s)|;
      } else {
        assert !Alnum(s[0]);
      }
    }
  }

  // A name that starts with a separator: PEP 503 keeps its hyphen.
  lemma {:induction false} LeadingSeparator()
    ensures Normalized("-a") != Pep503("-a")
  {
    AgreesWithPep503("-a");
  }

  // ---- Names of separators only ----

  lemma {:induction false} RunsEmptyIff(s: string)
    ensures Runs(s) == [] <==> forall i | 0 <= i < |s| :: !Alnum(s[i])
  {
    if s != [] {
      RunsEmptyIff(s[1..]);
      assert (forall i | 0 <= i < |s| :: !Alnum(s[i])) <==>
             !Alnum(s[0]) && forall i | 0 <= i < |s[1..]| :: !Alnum(s[1..][i]) by {
        assert s == [s[0]] + s[1..];
      }
    }
  }

  lemma {:induction false} NormalizedEmptyIff(name: string)
    ensures Normalized(name) == "" <==> forall i | 0 <= i < |name| :: !Alnum(name[i])
  {
    var s := Lower(name);
    RunsEmptyIff(s);
    RunsAreRuns(s);
    if Runs(s) != [] {
      JoinEnds(Runs(s));
    }
    assert forall i | 0 <= i < |name| :: Alnum(s[i]) == Alnum(name[i]);
  }
}
