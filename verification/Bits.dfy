// Machine words as bit lists, least significant bit first: bit i is element i.
module Bits {
  type byte = b: seq<bool> | |b| == 8 witness seq(8, i => false)
  type u32 = b: seq<bool> | |b| == 32 witness seq(32, i => false)

  function Zeros(n: nat): (r: seq<bool>)
    ensures |r| == n
  {
    seq(n, i => false)
  }

  function Ones(n: nat): (r: seq<bool>)
    ensures |r| == n
  {
    seq(n, i => true)
  }

  function Not(a: seq<bool>): (r: seq<bool>)
    ensures |r| == |a|
  {
    seq(|a|, i requires 0 <= i < |a| => !a[i])
  }

  function Xor(a: seq<bool>, b: seq<bool>): (r: seq<bool>)
    requires |a| == |b|
    ensures |r| == |a|
  {
    seq(|a|, i requires 0 <= i < |a| => a[i] != b[i])
  }

  // The low n bits of v: the cast `v as uN`.
  function Low(v: nat, n: nat): (r: seq<bool>)
    ensures |r| == n
  {
    if n == 0 then [] else [v % 2 == 1] + Low(v / 2, n - 1)
  }

  function Value(b: seq<bool>): nat {
    if b == [] then 0 else (if b[0] then 1 else 0) + 2 * Value(b[1..])
  }

  function Pow2(n: nat): (r: nat)
    ensures r >= 1
  {
    if n == 0 then 1 else 2 * Pow2(n - 1)
  }

  lemma {:induction false} ValueBound(b: seq<bool>)
    ensures Value(b) < Pow2(|b|)
  {
    if b != [] {
      ValueBound(b[1..]);
    }
  }

  lemma {:induction false} ValueBound32(b: u32)
    ensures Value(b) < 0x1_0000_0000
  {
    ValueBound(b);
    Pow2Add(16, 16);
    Pow2Add(8, 8);
    assert Pow2(8) == 256;
  }

  lemma {:induction false} Pow2Add(m: nat, n: nat)
    ensures Pow2(m + n) == Pow2(m) * Pow2(n)
  {
    if m > 0 {
      Pow2Add(m - 1, n);
    }
  }

  lemma {:induction false} LowOfValue(b: seq<bool>)
    ensures Low(Value(b), |b|) == b
  {
    if b != [] {
      LowOfValue(b[1..]);
      assert Value(b) / 2 == Value(b[1..]);
      assert b == [b[0]] + b[1..];
    }
  }

  lemma {:induction false} ValueOfLow(v: nat, n: nat)
    requires v < Pow2(n)
    ensures Value(Low(v, n)) == v
  {
    if n > 0 {
      ValueOfLow(v / 2, n - 1);
      assert Low(v, n)[1..] == Low(v / 2, n - 1);
    }
  }

  // A word that fits in n bits has only zeros above them.
  lemma {:induction false} LowOfSmall(v: nat, n: nat, m: nat)
    requires v < Pow2(n)
    ensures Low(v, n + m) == Low(v, n) + Zeros(m)
  {
    if n > 0 {
      LowOfSmall(v / 2, n - 1, m);
    } else if m > 0 {
      LowOfSmall(0, 0, m - 1);
      assert Low(0, m) == [false] + Zeros(m - 1) == Zeros(m);
    }
  }

  // Little-endian bytes of a word, and back.
  function LeBytes(w: seq<bool>): (r: seq<byte>)
    requires |w| % 8 == 0
    ensures |r| == |w| / 8
  {
    if w == [] then [] else [w[..8]] + LeBytes(w[8..])
  }

  function Flat(bs: seq<byte>): (r: seq<bool>)
    ensures |r| == 8 * |bs|
  {
    if bs == [] then [] else bs[0] + Flat(bs[1..])
  }

  lemma {:induction false} FlatOfLeBytes(w: seq<bool>)
    requires |w| % 8 == 0
    ensures Flat(LeBytes(w)) == w
  {
    if w != [] {
      FlatOfLeBytes(w[8..]);
      assert LeBytes(w)[1..] == LeBytes(w[8..]);
      assert w[..8] + w[8..] == w;
    }
  }

  lemma {:induction false} FlatInjective(u: seq<byte>, v: seq<byte>)
    requires |u| == |v| && Flat(u) == Flat(v)
    ensures u == v
  {
    if u != [] {
      assert u[0] == Flat(u)[..8] && v[0] == Flat(v)[..8];
      assert Flat(u[1..]) == Flat(u)[8..] && Flat(v[1..]) == Flat(v)[8..];
      FlatInjective(u[1..], v[1..]);
      assert u == [u[0]] + u[1..] && v == [v[0]] + v[1..];
    }
  }

  lemma {:induction false} FlatAppend(u: seq<byte>, v: seq<byte>)
    ensures Flat(u + v) == Flat(u) + Flat(v)
  {
    if u == [] {
      assert u + v == v;
    } else {
      assert (u + v)[0] == u[0] && (u + v)[1..] == u[1..] + v;
      FlatAppend(u[1..], v);
    }
  }
}
