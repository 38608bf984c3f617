// Escaping of text for the RPM repository metadata.
module XmlEscape {
  import opened Text

  // s.replace(c, with)
  function Replace(s: string, c: char, with: string): string {
    if s == [] then []
    else (if s[0] == c then with else [s[0]]) + Replace(s[1..], c, with)
  }

  // Five whole-string replacements, one after the other.
  function Escape(s: string): string {
    var s := Replace(s, '&', "&amp;");
    var s := Replace(s, '<', "&lt;");
    var s := Replace(s, '>', "&gt;");
    var s := Replace(s, '"', "&quot;");
    Replace(s, '\'', "&apos;")
  }

  // ---- One pass ----

  function Entity(c: char): string {
    match c
    case '&' => "&amp;"
    case '<' => "&lt;"
    case '>' => "&gt;"
    case '"' => "&quot;"
    case '\'' => "&apos;"
    case _ => [c]
  }

  function EscapeEach(s: string): string {
    if s == [] then [] else Entity(s[0]) + EscapeEach(s[1..])
  }

  lemma {:induction false} ReplaceAppend(a: string, b: string, c: char, with: string)
    ensures Replace(a + b, c, with) == Replace(a, c, with) + Replace(b, c, with)
  {
    if a == [] {
      assert a + b == b;
    } else {
      assert (a + b)[0] == a[0] && (a + b)[1..] == a[1..] + b;
      ReplaceAppend(a[1..], b, c, with);
    }
  }

  lemma {:induction false} ReplaceAbsent(s: string, c: char, with: string)
    requires c !in s
    ensures Replace(s, c, with) == s
  {
    if s != [] {
      ReplaceAbsent(s[1..], c, with);
    }
  }

  lemma {:induction false} ReplaceOne(c: char, with: string)
    ensures Replace([c], c, with) == with
  {
    assert [c][1..] == [];
  }

  lemma {:induction false} EscapeAppend(a: string, b: string)
    ensures Escape(a + b) == Escape(a) + Escape(b)
  {
    ReplaceAppend(a, b, '&', "&amp;");
    var a1, b1 := Replace(a, '&', "&amp;"), Replace(b, '&', "&amp;");
    ReplaceAppend(a1, b1, '<', "&lt;");
    var a2, b2 := Replace(a1, '<', "&lt;"), Replace(b1, '<', "&lt;");
    ReplaceAppend(a2, b2, '>', "&gt;");
    var a3, b3 := Replace(a2, '>', "&gt;"), Replace(b2, '>', "&gt;");
    ReplaceAppend(a3, b3, '"', "&quot;");
    ReplaceAppend(Replace(a3, '"', "&quot;"), Replace(b3, '"', "&quot;"), '\'', "&apos;");
  }

  // No later replacement touches what an earlier one has put in.
  lemma {:induction false} EscapeOne(c: char)
    ensures Escape([c]) == Entity(c)
  {
    hide Replace;
    var s1 := if c == '&' then "&amp;" else [c];
    if c == '&' { ReplaceOne(c, "&amp;"); } else { ReplaceAbsent([c], '&', "&amp;"); }
    var s2 := if c == '<' then "&lt;" else s1;
    if c == '<' { ReplaceOne(c, "&lt;"); } else { ReplaceAbsent(s1, '<', "&lt;"); }
    var s3 := if c == '>' then "&gt;" else s2;
    if c == '>' { ReplaceOne(c, "&gt;"); } else { ReplaceAbsent(s2, '>', "&gt;"); }
    var s4 := if c == '"' then "&quot;" else s3;
    if c == '"' { ReplaceOne(c, "&quot;"); } else { ReplaceAbsent(s3, '"', "&quot;"); }
    if c == '\'' { ReplaceOne(c, "&apos;"); } else { ReplaceAbsent(s4, '\'', "&apos;"); }
  }

  lemma {:induction false} EscapeIsOnePass(s: string)
    ensures Escape(s) == EscapeEach(s)
  {
    if s != [] {
      assert s == [s[0]] + s[1..];
      EscapeAppend([s[0]], s[1..]);
      EscapeOne(s[0]);
      EscapeIsOnePass(s[1..]);
    }
  }

  // ---- Reading it back ----

  // The five predefined entities of section 4.6 of XML 1.0.
  function EntityAt(s: string): (r: Option<(char, nat)>)
    ensures r.Some? ==> 0 < r.value.1 <= |s|
  {
    if "&amp;" <= s then Some(('&', 5))
    else if "&lt;" <= s then Some(('<', 4))
    else if "&gt;" <= s then Some(('>', 4))
    else if "&quot;" <= s then Some(('"', 6))
    else if "&apos;" <= s then Some(('\'', 6))
    else None
  }

  predicate Special(c: char) {
    c == '&' || c == '<' || c == '>' || c == '"' || c == '\''
  }

  // Fails on a special character that stands for itself and on an & that starts no entity.
  function Unescape(s: string): Option<string>
    decreases |s|
  {
    if s == [] then Some([])
    else if !Special(s[0]) then
      match Unescape(s[1..])
      case None => None
      case Some(t) => Some([s[0]] + t)
    else
      match EntityAt(s)
      case None => None
      case Some((c, n)) =>
        match Unescape(s[n..])
        case None => None
        case Some(t) => Some([c] + t)
  }

  lemma {:induction false} EntityReadBack(c: char, rest: string)
    requires Special(c)
    ensures EntityAt(Entity(c) + rest) == Some((c, |Entity(c)|)) && Special((Entity(c) + rest)[0])
    ensures (Entity(c) + rest)[|Entity(c)|..] == rest
  {
    var s := Entity(c) + rest;
    assert s[1] == Entity(c)[1] && s[2] == Entity(c)[2];
  }

  // Unescaping gives back every string, and never fails on what was escaped: no
  // special character of the output is bare.
  lemma {:induction false} UnescapeOfEscape(s: string)
    ensures Unescape(Escape(s)) == Some(s)
  {
    EscapeIsOnePass(s);
    UnescapeEach(s);
  }

  lemma {:induction false} UnescapeEach(s: string)
    ensures Unescape(EscapeEach(s)) == Some(s)
  {
    if s != [] {
      var rest := EscapeEach(s[1..]);
      UnescapeEach(s[1..]);
      if Special(s[0]) {
        EntityReadBack(s[0], rest);
      } else {
        assert EscapeEach(s) == [s[0]] + rest;
        assert EscapeEach(s)[1..] == rest;
      }
      assert [s[0]] + s[1..] == s;
    }
  }

  lemma {:induction false} EscapeInjective(s: string, t: string)
    requires Escape(s) == Escape(t)
    ensures s == t
  {
    UnescapeOfEscape(s);
    UnescapeOfEscape(t);
  }

  // What can be unescaped has no bare special character.
  lemma {:induction false} UnescapableIsClean(s: string, i: nat)
    requires Unescape(s).Some? && i < |s|
    ensures s[i] == '&' || !Special(s[i])
    ensures s[i] == '&' ==> EntityAt(s[i..]).Some?
    decreases |s|
  {
    if i > 0 {
      var n := if Special(s[0]) then EntityAt(s).value.1 else 1;
      if n <= i {
        assert s[n..][i - n] == s[i] && s[n..][i - n..] == s[i..];
        UnescapableIsClean(s[n..], i - n);
      } else {
        EntityInside(s, i);
      }
    } else {
      assert s[0..] == s;
    }
  }

  lemma {:induction false} EntityInside(s: string, i: nat)
    requires EntityAt(s).Some? && 0 < i < EntityAt(s).value.1
    ensures !Special(s[i])
  {
    if "&amp;" <= s { assert s[i] == "&amp;"[i]; }
    else if "&lt;" <= s { assert s[i] == "&lt;"[i]; }
    else if "&gt;" <= s { assert s[i] == "&gt;"[i]; }
    else if "&quot;" <= s { assert s[i] == "&quot;"[i]; }
    else { assert s[i] == "&apos;"[i]; }
  }

  lemma {:induction false} EscapedIsClean(s: string, i: nat)
    requires i < |Escape(s)|
    ensures Escape(s)[i] == '&' || !Special(Escape(s)[i])
    ensures Escape(s)[i] == '&' ==> EntityAt(Escape(s)[i..]).Some?
  {
    UnescapeOfEscape(s);
    UnescapableIsClean(Escape(s), i);
  }
}
