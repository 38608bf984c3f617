// The CRC-32 of the RPM plugin's gzip writer.
module Crc32 {
  import opened Bits

  // 0xEDB8_8320
  const POLY: u32 := [
    false, false, false, false, false, true, false, false,
    true, true, false, false, false, false, false, true,
    false, false, false, true, true, true, false, true,
    true, false, true, true, false, true, true, true
  ]

  // crc >> 1
  function Shr(c: u32): u32 {
    c[1..] + [false]
  }

  // One turn of the inner loop.
  function Step(c: u32): u32 {
    if c[0] then Xor(Shr(c), POLY) else Shr(c)
  }

  function Steps(c: u32, n: nat): u32
    decreases n
  {
    if n == 0 then c else Steps(Step(c), n - 1)
  }

  // crc ^= byte as u32, then one turn for each of the byte's eight bits.
  function ByteStep(c: u32, b: byte): u32 {
    Steps(Xor(c, b + Zeros(24)), |b|)
  }

  function Register(c: u32, data: seq<byte>): u32
    decreases data
  {
    if data == [] then c else Register(ByteStep(c, data[0]), data[1..])
  }

  function Checksum(data: seq<byte>): u32 {
    Not(Register(Ones(32), data))
  }

  // The inner loop, and the outer loop around it.
  method Turn(c: u32, n: nat) returns (crc: u32)
    ensures crc == Steps(c, n)
  {
    crc := c;
    for k := 0 to n
      invariant Steps(crc, n - k) == Steps(c, n)
    {
      if crc[0] {
        crc := Xor(Shr(crc), POLY);
      } else {
        crc := Shr(crc);
      }
    }
  }

  method Compute(data: seq<byte>) returns (crc: u32)
    ensures crc == Checksum(data)
  {
    crc := Ones(32);
    for i := 0 to |data|
      invariant Register(crc, data[i..]) == Register(Ones(32), data)
    {
      crc := Turn(Xor(crc, data[i] + Zeros(24)), |data[i]|);
      assert data[i..][0] == data[i] && data[i..][1..] == data[i + 1..];
    }
    assert data[|data|..] == [];
    crc := Not(crc);
  }

  // ---- The step is linear over exclusive or, and a bijection ----

  lemma {:induction false} StepLinear(a: u32, b: u32)
    ensures Step(Xor(a, b)) == Xor(Step(a), Step(b))
  {
    assert Shr(Xor(a, b)) == Xor(Shr(a), Shr(b));
  }

  lemma {:induction false} StepsLinear(a: u32, b: u32, n: nat)
    ensures Steps(Xor(a, b), n) == Xor(Steps(a, n), Steps(b, n))
    decreases n
  {
    if n > 0 {
      StepLinear(a, b);
      StepsLinear(Step(a), Step(b), n - 1);
    }
  }

  lemma {:induction false} StepsAdd(c: u32, m: nat, n: nat)
    ensures Steps(c, m + n) == Steps(Steps(c, m), n)
    decreases m
  {
    if m > 0 {
      StepsAdd(Step(c), m - 1, n);
    }
  }

  lemma {:induction false} StepInjective(a: u32, b: u32)
    requires Step(a) == Step(b)
    ensures a == b
  {
    assert Step(a)[31] == a[0] && Step(b)[31] == b[0];
    assert Xor(Xor(Shr(a), POLY), POLY) == Shr(a) && Xor(Xor(Shr(b), POLY), POLY) == Shr(b);
    assert a[1..] == Shr(a)[..31] == Shr(b)[..31] == b[1..];
    assert a == [a[0]] + a[1..] && b == [b[0]] + b[1..];
  }

  lemma {:induction false} StepsInjective(a: u32, b: u32, n: nat)
    requires Steps(a, n) == Steps(b, n)
    ensures a == b
    decreases n
  {
    if n > 0 {
      StepsInjective(Step(a), Step(b), n - 1);
      StepInjective(a, b);
    }
  }

  // Bits that do not reach the bottom are shifted down unchanged.
  lemma {:induction false} StepsShift(s: seq<bool>, n: nat)
    requires n + |s| == 32
    ensures Steps(Zeros(n) + s, n) == s + Zeros(n)
    decreases n
  {
    if n > 0 {
      assert Shr(Zeros(n) + s) == Zeros(n - 1) + (s + [false]);
      StepsShift(s + [false], n - 1);
      assert s + [false] + Zeros(n - 1) == s + Zeros(n);
    } else {
      assert Zeros(n) + s == s == s + Zeros(n);
    }
  }

  lemma {:induction false} RegisterAppend(c: u32, u: seq<byte>, v: seq<byte>)
    ensures Register(c, u + v) == Register(Register(c, u), v)
    decreases u
  {
    if u == [] {
      assert u + v == v;
    } else {
      assert (u + v)[0] == u[0] && (u + v)[1..] == u[1..] + v;
      RegisterAppend(ByteStep(c, u[0]), u[1..], v);
    }
  }

  // The first byte of a word taken in, the others wait.
  lemma {:induction false} FirstByte(c: u32, b: byte, rest: seq<bool>)
    requires |rest| == 24
    ensures Steps(Xor(c, b + rest), |b|) == Xor(ByteStep(c, b), rest + Zeros(|b|))
  {
    assert Xor(c, b + rest) == Xor(Xor(c, b + Zeros(24)), Zeros(|b|) + rest);
    StepsLinear(Xor(c, b + Zeros(24)), Zeros(|b|) + rest, |b|);
    StepsShift(rest, |b|);
  }

  // Up to four bytes go in as one exclusive or with their little-endian word, followed
  // by all their turns.
  lemma {:induction false} RegisterWord(c: u32, u: seq<byte>)
    requires |u| <= 4
    ensures Register(c, u) == Steps(Xor(c, Flat(u) + Zeros(32 - 8 * |u|)), 8 * |u|)
    decreases u
  {
    if u == [] {
      assert Xor(c, Flat(u) + Zeros(32)) == c;
    } else {
      var b, t := u[0], u[1..];
      var pad := Zeros(32 - 8 * |u|);
      var rest := Flat(t) + pad;
      assert b + rest == Flat(u) + pad;
      assert rest + Zeros(|b|) == Flat(t) + Zeros(32 - 8 * |t|);
      FirstByte(c, b, rest);
      RegisterWord(ByteStep(c, b), t);
      StepsAdd(Xor(c, b + rest), |b|, 8 * |t|);
      hide Steps, Xor, Zeros, ByteStep;
    }
  }

  lemma {:induction false} RegisterInjective(c: u32, d: u32, data: seq<byte>)
    requires Register(c, data) == Register(d, data)
    ensures c == d
    decreases data
  {
    if data != [] {
      var z := data[0] + Zeros(24);
      RegisterInjective(ByteStep(c, data[0]), ByteStep(d, data[0]), data[1..]);
      StepsInjective(Xor(c, z), Xor(d, z), |data[0]|);
      assert Xor(Xor(c, z), z) == c && Xor(Xor(d, z), z) == d;
    }
  }

  // Any change confined to four consecutive bytes is detected.
  lemma {:induction false} BurstDetected(before: seq<byte>, u: seq<byte>, v: seq<byte>, after: seq<byte>)
    requires |u| == |v| <= 4 && u != v
    ensures Checksum(before + u + after) != Checksum(before + v + after)
  {
    if Checksum(before + u + after) == Checksum(before + v + after) {
      var c := Register(Ones(32), before);
      RegisterAppend(Ones(32), before + u, after);
      RegisterAppend(Ones(32), before, u);
      RegisterAppend(Ones(32), before + v, after);
      RegisterAppend(Ones(32), before, v);
      NotInjective(Register(Register(c, u), after), Register(Register(c, v), after));
      RegisterInjective(Register(c, u), Register(c, v), after);
      RegisterWord(c, u);
      RegisterWord(c, v);
      var pad := Zeros(32 - 8 * |u|);
      var x, y := Flat(u) + pad, Flat(v) + pad;
      StepsInjective(Xor(c, x), Xor(c, y), 8 * |u|);
      assert x == Xor(Xor(c, x), c) == Xor(Xor(c, y), c) == y;
      assert Flat(u) == x[..8 * |u|] == y[..8 * |u|] == Flat(v);
      FlatInjective(u, v);
    }
  }

  lemma {:induction false} NotInjective(a: u32, b: u32)
    requires Not(a) == Not(b)
    ensures a == b
  {
    assert a == Not(Not(a)) == Not(Not(b)) == b;
  }

  // Appending its own little-endian checksum sends every message to one word.
  lemma {:induction false} SelfCheckResidue(data: seq<byte>)
    ensures Checksum(data + LeBytes(Checksum(data))) == Not(Steps(Ones(32), 32))
  {
    var r := Register(Ones(32), data);
    var trailer := LeBytes(Not(r));
    RegisterAppend(Ones(32), data, trailer);
    RegisterWord(r, trailer);
    FlatOfLeBytes(Not(r));
    assert Xor(r, Not(r) + Zeros(0)) == Ones(32);
  }

  // ---- The table-driven form of section 8 of RFC 1952 ----

  function TableEntry(n: byte): u32 {
    Steps(n + Zeros(24), |n|)
  }

  function UpdateByTable(c: u32, data: seq<byte>): u32
    decreases data
  {
    if data == [] then c
    else UpdateByTable(Xor(TableEntry(Xor(c[..8], data[0])), c[8..] + Zeros(8)), data[1..])
  }

  lemma {:induction false} TableStep(c: u32, b: byte)
    ensures Xor(TableEntry(Xor(c[..8], b)), c[8..] + Zeros(8)) == ByteStep(c, b)
  {
    var n: byte := Xor(c[..8], b);
    assert Xor(c, b + Zeros(24)) == Xor(n + Zeros(24), Zeros(|n|) + c[8..]);
    StepsLinear(n + Zeros(24), Zeros(|n|) + c[8..], |n|);
    StepsShift(c[8..], |n|);
  }

  lemma {:induction false} TableDriven(c: u32, data: seq<byte>)
    ensures UpdateByTable(c, data) == Register(c, data)
    decreases data
  {
    if data != [] {
      TableStep(c, data[0]);
      TableDriven(ByteStep(c, data[0]), data[1..]);
    }
  }
}
