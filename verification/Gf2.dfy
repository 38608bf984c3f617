// The CRC register as the remainder of a polynomial division over GF(2).
// A polynomial is a list of coefficients, highest power first.
module Gf2 {
  import opened Bits
  import opened Crc32

  // The generator: x^32 and the reflected POLY.
  function Generator(): seq<bool> {
    [true] + POLY
  }

  // The generator times b * x^(n - 1).
  function Lead(b: bool, n: nat): (p: seq<bool>)
    requires n > 0
    ensures |p| == n + 32 && p[0] == b
  {
    if b then Generator() + Zeros(n - 1) else Zeros(n + 32)
  }

  // q times the generator; a product of n coefficients has n + 32.
  function Times(q: seq<bool>): (p: seq<bool>)
    ensures |p| == |q| + 32
  {
    if q == [] then Zeros(32) else Xor(Lead(q[0], |q|), [false] + Times(q[1..]))
  }

  // p = q * G + r with a remainder of degree below 32.
  predicate Divides(p: seq<bool>, q: seq<bool>, r: u32) {
    |p| == |q| + 32 && p == Xor(Times(q), Zeros(|q|) + r)
  }

  lemma {:induction false} Peel(p: seq<bool>, lead: seq<bool>, times: seq<bool>, rest: seq<bool>)
    requires |p| == |lead| == |times| + 1 == |rest| + 1
    ensures p == Xor(Xor(lead, [false] + times), [false] + rest)
       <==> p[0] == lead[0] && Xor(p, lead)[1..] == Xor(times, rest)
  {
    var sum := Xor(Xor(lead, [false] + times), [false] + rest);
    if p[0] == lead[0] && Xor(p, lead)[1..] == Xor(times, rest) {
      forall i | 0 < i < |p|
        ensures p[i] == sum[i]
      {
        assert Xor(p, lead)[1..][i - 1] == Xor(times, rest)[i - 1];
      }
    }
    if p == sum {
      assert Xor(p, lead)[1..] == Xor(times, rest);
    }
  }

  // One step of long division.
  lemma {:induction false} DividesStep(p: seq<bool>, q: seq<bool>, r: u32)
    requires q != [] && |p| == |q| + 32
    ensures Divides(p, q, r) <==> p[0] == q[0] && Divides(Xor(p, Lead(q[0], |q|))[1..], q[1..], r)
  {
    var n := |q| - 1;
    assert Zeros(|q|) + r == [false] + (Zeros(n) + r);
    Peel(p, Lead(q[0], |q|), Times(q[1..]), Zeros(n) + r);
  }

  // The division has one quotient and one remainder.
  lemma {:induction false} DivisionUnique(p: seq<bool>, q: seq<bool>, r: u32, q': seq<bool>, r': u32)
    requires Divides(p, q, r) && Divides(p, q', r')
    ensures q == q' && r == r'
    decreases |q|
  {
    if q == [] {
      assert p == Zeros(0) + r == r && p == Zeros(0) + r' == r';
    } else {
      DividesStep(p, q, r);
      DividesStep(p, q', r');
      DivisionUnique(Xor(p, Lead(q[0], |q|))[1..], q[1..], r, q'[1..], r');
      assert q == [q[0]] + q[1..] && q' == [q'[0]] + q'[1..];
    }
  }

  // What the register c divides when the bits m follow: c's bits are added to
  // the first 32 coefficients of m * x^32.
  function Dividend(c: u32, m: seq<bool>): (p: seq<bool>)
    ensures |p| == |m| + 32
  {
    Xor(c + Zeros(|m|), m + Zeros(32))
  }

  // The register after the bits m, one turn for each.
  function Feed(c: u32, m: seq<bool>): u32
    decreases |m|
  {
    if m == [] then c else Feed(Step(Xor(c, [m[0]] + Zeros(31))), m[1..])
  }

  // Subtracting the leading multiple of G is one turn of the register.
  lemma {:induction false} DividendStep(d: u32, m: seq<bool>)
    requires m != []
    ensures Xor(Dividend(d, [false] + m[1..]), Lead(d[0], |m|))[1..] == Dividend(Step(d), m[1..])
  {
    var n := |m| - 1;
    var l := Lead(d[0], |m|);
    assert Step(d) + Zeros(n) == Xor(d + Zeros(|m|), l)[1..];
    assert Xor(Dividend(d, [false] + m[1..]), l)[1..]
        == Xor(Xor(d + Zeros(|m|), l)[1..], m[1..] + Zeros(32));
  }

  lemma {:induction false} FeedDivides(c: u32, m: seq<bool>) returns (q: seq<bool>)
    ensures |q| == |m| && Divides(Dividend(c, m), q, Feed(c, m))
    decreases |m|
  {
    if m == [] {
      q := [];
      assert Dividend(c, m) == Xor(Times([]), Zeros(0) + c);
    } else {
      var d := Xor(c, [m[0]] + Zeros(31));
      var tail := FeedDivides(Step(d), m[1..]);
      q := [d[0]] + tail;
      assert Dividend(c, m) == Dividend(d, [false] + m[1..]);
      DividendStep(d, m);
      DividesStep(Dividend(c, m), q, Feed(c, m));
    }
  }

  // Adding a byte and then turning is the same as adding each bit as it is shifted in.
  lemma {:induction false} StepsFeed(c: u32, m: seq<bool>)
    requires |m| <= 32
    ensures Steps(Xor(c, m + Zeros(32 - |m|)), |m|) == Feed(c, m)
    decreases |m|
  {
    if m == [] {
      assert Xor(c, m + Zeros(32)) == c;
    } else {
      var d := Xor(c, [m[0]] + Zeros(31));
      var rest: u32 := [false] + m[1..] + Zeros(32 - |m|);
      var whole := Xor(c, m + Zeros(32 - |m|));
      assert whole == Xor(d, rest);
      StepLinear(d, rest);
      assert Step(rest) == m[1..] + Zeros(32 - |m[1..]|);
      StepsFeed(Step(d), m[1..]);
    }
  }

  lemma {:induction false} FeedAppend(c: u32, m: seq<bool>, n: seq<bool>)
    ensures Feed(c, m + n) == Feed(Feed(c, m), n)
    decreases |m|
  {
    if m == [] {
      assert m + n == n;
    } else {
      assert (m + n)[0] == m[0] && (m + n)[1..] == m[1..] + n;
      FeedAppend(Step(Xor(c, [m[0]] + Zeros(31))), m[1..], n);
    }
  }

  lemma {:induction false} ByteFeeds(c: u32, b: byte)
    ensures ByteStep(c, b) == Feed(c, b)
  {
    StepsFeed(c, b);
  }

  lemma {:induction false} RegisterFeeds(c: u32, data: seq<byte>)
    ensures Register(c, data) == Feed(c, Flat(data))
    decreases data
  {
    if data != [] {
      ByteFeeds(c, data[0]);
      FeedAppend(c, data[0], Flat(data[1..]));
      RegisterFeeds(ByteStep(c, data[0]), data[1..]);
    }
  }

  // The checksum is the complement of the one remainder that the message bits,
  // shifted up by 32 places and with their first 32 inverted, leave modulo G.
  lemma {:induction false} ChecksumIsRemainder(data: seq<byte>, r: u32)
    ensures (exists q :: Divides(Dividend(Ones(32), Flat(data)), q, r)) <==> Checksum(data) == Not(r)
  {
    var p := Dividend(Ones(32), Flat(data));
    var state := Register(Ones(32), data);
    RegisterFeeds(Ones(32), data);
    var quotient := FeedDivides(Ones(32), Flat(data));
    if q :| Divides(p, q, r) {
      DivisionUnique(p, q, r, quotient, state);
    }
    if Checksum(data) == Not(r) {
      NotInjective(state, r);
    }
  }
}
