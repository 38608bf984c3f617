// Bytes, optional values, and the string operations that several modules use.
module Text {
  datatype Option<+T> = None | Some(value: T)

  // An element of a byte array.
  type Octet = n: int | 0 <= n < 256

  function Min(a: nat, b: nat): nat {
    if a < b then a else b
  }

  // Lower-casing, of ASCII letters only.
  function ToLower(c: char): char {
    if 'A' <= c <= 'Z' then (c as int + 32) as char else c
  }

  function Lower(s: string): (r: string)
    ensures |r| == |s|
  {
    seq(|s|, i requires 0 <= i < |s| => ToLower(s[i]))
  }

  function Join(sep: char, parts: seq<string>): string {
    if parts == [] then []
    else if |parts| == 1 then parts[0]
    else parts[0] + [sep] + Join(sep, parts[1..])
  }

  function StripSuffix(s: string, suffix: string): (r: Option<string>)
    ensures r.Some? ==> s == r.value + suffix
    ensures r.Some? <==> |suffix| <= |s| && s[|s| - |suffix|..] == suffix
  {
    if |suffix| <= |s| && s[|s| - |suffix|..] == suffix then Some(s[..|s| - |suffix|]) else None
  }

  lemma {:induction false} StripSuffixOfAppend(s: string, suffix: string)
    ensures StripSuffix(s + suffix, suffix) == Some(s)
  {
    assert (s + suffix)[|s|..] == suffix && (s + suffix)[..|s|] == s;
  }

  // rsplit_once: the parts around the last occurrence of c.
  function RSplitOnce(s: string, c: char): (r: Option<(string, string)>)
    ensures r.None? <==> c !in s
    ensures r.Some? ==> s == r.value.0 + [c] + r.value.1 && c !in r.value.1
  {
    if s == [] then None
    else if s[|s| - 1] == c then Some((s[..|s| - 1], []))
    else
      assert s == s[..|s| - 1] + [s[|s| - 1]];
      match RSplitOnce(s[..|s| - 1], c)
      case None => None
      case Some((a, b)) => Some((a, b + [s[|s| - 1]]))
  }

  lemma {:induction false} RSplitOnceUnique(a: string, c: char, b: string)
    requires c !in b
    ensures RSplitOnce(a + [c] + b, c) == Some((a, b))
  {
    var s := a + [c] + b;
    assert s[|a|] == c;
    var (a', b') := RSplitOnce(s, c).value;
    assert s[|a|] == c && s[|a'|] == c;
    assert |a'| == |a|;
    assert a' == s[..|a|] == a && b' == s[|a| + 1..] == b;
  }

  // path.rsplit('/').next(): what follows the last slash, or everything.
  function FileName(path: string): (f: string)
    ensures '/' !in f
  {
    match RSplitOnce(path, '/')
    case None => path
    case Some((_, f)) => f
  }

  // The file name of any path: no slash in it, and nothing or a directory before it.
  lemma {:induction false} FileNameIff(path: string, f: string)
    ensures FileName(path) == f <==> '/' !in f && (path == f || exists dir :: path == dir + "/" + f)
  {
    if '/' in path {
      var (before, last) := RSplitOnce(path, '/').value;
      assert path == before + "/" + last;
      assert '/' in path && '/' !in f ==> path != f;
    }
    if dir :| '/' !in f && path == dir + "/" + f {
      RSplitOnceUnique(dir, '/', f);
      assert path[|dir|] == '/';
    }
  }

  // s.split(c).next(): what precedes the first c, or everything.
  function FirstPart(s: string, c: char): (p: string)
    ensures c !in p
    ensures p == s || (p + [c] <= s)
  {
    if s == [] || s[0] == c then [] else [s[0]] + FirstPart(s[1..], c)
  }
}
