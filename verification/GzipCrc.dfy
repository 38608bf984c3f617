// The checksum of the gzip writer on octets: what their bits are, which number a
// self-checked message has, and the division it is the remainder of.
module GzipCrc {
  import opened Text
  import opened Bits
  import Crc32
  import Gf2
  import Residue
  import opened Gzip

  // ---- Binary digits ----

  // The digit of weight 2^j.
  predicate Digit(v: nat, j: nat) {
    v / Pow2(j) % 2 == 1
  }

  lemma {:induction false} HalfDigit(v: nat, j: nat)
    requires j > 0
    ensures Digit(v, j) <==> Digit(v / 2, j - 1)
  {
    DivideTwice(v, Pow2(j - 1));
  }

  lemma {:induction false} SmallMultiple(x: int, d: int)
    requires -d < x * d < d
    ensures x == 0
  {
    assert x >= 1 ==> (x - 1) * d >= 0;
    assert x <= -1 ==> (-1 - x) * d >= 0;
  }

  lemma {:induction false} Distributed(a: int, b: int, d: int)
    ensures (a - b) * d == a * d - b * d
  {
  }

  lemma {:induction false} OneQuotient(d: int, q: int, r: int, q': int, r': int)
    requires q * d + r == q' * d + r' && 0 <= r < d && 0 <= r' < d
    ensures q == q'
  {
    Distributed(q, q', d);
    SmallMultiple(q - q', d);
  }

  lemma {:induction false} DivisionIs(v: int, d: int)
    requires d > 0
    ensures v == v / d * d + v % d && 0 <= v % d < d
  {
  }

  lemma {:induction false} DivideTwice(v: nat, b: nat)
    requires b > 0
    ensures v / (2 * b) == v / 2 / b
  {
    var h := v / 2;
    DivisionIs(v, 2 * b);
    DivisionIs(h, b);
    Doubled(h / b, b);
    OneQuotient(2 * b, v / (2 * b), v % (2 * b), h / b, 2 * (h % b) + v % 2);
  }

  lemma {:induction false} Doubled(q: int, b: int)
    ensures q * (2 * b) == 2 * (q * b)
  {
  }

  lemma {:induction false} LowDigits(v: nat, n: nat, j: nat)
    requires j < n
    ensures Low(v, n)[j] <==> Digit(v, j)
  {
    if j == 0 {
      assert Pow2(0) == 1;
    } else {
      LowDigits(v / 2, n - 1, j - 1);
      HalfDigit(v, j);
    }
  }

  // The bits that the checksum sees of an octet are its binary digits, lowest first.
  lemma {:induction false} ToBitsDigits(data: seq<Octet>, i: nat, j: nat)
    requires i < |data| && j < 8
    ensures ToBits(data)[i][j] <==> Digit(data[i], j)
  {
    LowDigits(data[i], 8, j);
  }

  // All digits of all octets in a row.
  function Digits(data: seq<Octet>): (r: seq<bool>)
    ensures |r| == 8 * |data|
  {
    seq(8 * |data|, t requires 0 <= t < 8 * |data| => Digit(data[t / 8], t % 8))
  }

  lemma {:induction false} FlatAt(bs: seq<byte>, t: nat)
    requires t < 8 * |bs|
    ensures Flat(bs)[t] == bs[t / 8][t % 8]
  {
    if t >= 8 {
      FlatAt(bs[1..], t - 8);
      assert (t - 8) / 8 == t / 8 - 1 && (t - 8) % 8 == t % 8;
    }
  }

  lemma {:induction false} FlatIsDigits(data: seq<Octet>)
    ensures Flat(ToBits(data)) == Digits(data)
  {
    forall t: nat | t < 8 * |data|
      ensures Flat(ToBits(data))[t] == Digits(data)[t]
    {
      FlatAt(ToBits(data), t);
      ToBitsDigits(data, t / 8, t % 8);
    }
  }

  lemma {:induction false} ValueInjective(a: u32, b: u32)
    requires Value(a) == Value(b)
    ensures a == b
  {
    LowOfValue(a);
    LowOfValue(b);
  }

  // The checksum of octets is the complement of the one remainder that the polynomial
  // of their binary digits, shifted up by 32 places and with its first 32 coefficients
  // inverted, leaves modulo the generator.
  lemma {:induction false} CrcIsRemainder(data: seq<Octet>, r: u32)
    ensures (exists q :: Gf2.Divides(Gf2.Dividend(Ones(32), Digits(data)), q, r)) <==> Crc(data) == Value(Not(r))
  {
    FlatIsDigits(data);
    Gf2.ChecksumIsRemainder(ToBits(data), r);
    if Crc(data) == Value(Not(r)) {
      ValueInjective(Crc32.Checksum(ToBits(data)), Not(r));
    }
  }

  // ---- The trailer ----

  function Down(v: nat, m: nat): nat
    decreases m
  {
    if m == 0 then v else Down(v / 2, m - 1)
  }

  lemma {:induction false} LowSplit(v: nat, m: nat, n: nat)
    ensures Low(v, m + n) == Low(v, m) + Low(Down(v, m), n)
    decreases m
  {
    if m > 0 {
      LowSplit(v / 2, m - 1, n);
    } else {
      assert Low(v, 0) + Low(v, n) == Low(v, n);
    }
  }

  lemma {:induction false} DownEight(v: nat)
    ensures Down(v, 8) == v / 256
  {
    var half := v / 2 / 2 / 2 / 2;
    assert Down(v, 8) == Down(half, 4) by {
      assert Down(v, 8) == Down(v / 2, 7) == Down(v / 2 / 2, 6) == Down(v / 2 / 2 / 2, 5);
    }
    assert Down(half, 4) == half / 2 / 2 / 2 / 2 by {
      assert Down(half, 4) == Down(half / 2, 3) == Down(half / 2 / 2, 2) == Down(half / 2 / 2 / 2, 1);
    }
  }

  lemma {:induction false} DownAdd(v: nat, m: nat, n: nat)
    ensures Down(v, m + n) == Down(Down(v, m), n)
    decreases m
  {
    if m > 0 {
      DownAdd(v / 2, m - 1, n);
    }
  }

  lemma {:induction false} LowModulo(v: nat, m: nat)
    ensures Low(v % Pow2(m), m) == Low(v, m)
    decreases m
  {
    if m > 0 {
      ModuloHalves(v, Pow2(m - 1));
      LowModulo(v / 2, m - 1);
    }
  }

  lemma {:induction false} ModuloHalves(v: nat, p: nat)
    requires p > 0
    ensures v % (2 * p) / 2 == v / 2 % p && v % (2 * p) % 2 == v % 2
  {
    DivideTwice(v, p);
    var q := v / (2 * p);
    assert v / 2 == q * p + v / 2 % p;
    assert v == 2 * (v / 2) + v % 2;
    assert v == q * (2 * p) + (2 * (v / 2 % p) + v % 2);
  }

  lemma {:induction false} PowersAre()
    ensures Pow2(8) == 256 && Pow2(16) == 0x1_0000
  {
    Pow2Add(4, 4);
    Pow2Add(8, 8);
    assert Pow2(4) == 16;
  }

  lemma {:induction false} Le16Bits(v: nat)
    requires v < 0x1_0000
    ensures Flat(ToBits(Le16(v))) == Low(v, 16)
  {
    PowersAre();
    LowSplit(v, 8, 8);
    LowModulo(v, 8);
    DownEight(v);
    hide Low, Pow2, Down;
    assert ToBits(Le16(v)) == [Low(v % 256, 8), Low(v / 256, 8)];
    assert Flat(ToBits(Le16(v))) == Low(v % 256, 8) + Low(v / 256, 8);
  }

  lemma {:induction false} DownSixteen(v: nat)
    ensures Down(v, 16) == v / 0x1_0000
  {
    DownEight(v);
    DownEight(v / 256);
    DownAdd(v, 8, 8);
  }

  lemma {:induction false} Le32Flat(v: nat)
    requires v < 0x1_0000_0000
    ensures Flat(ToBits(Le32(v))) == Low(v, 32)
  {
    PowersAre();
    LowModulo(v, 16);
    LowSplit(v, 16, 16);
    DownSixteen(v);
    hide Low, Pow2, Le16, Down;
    var low, high := Le16(v % 0x1_0000), Le16(v / 0x1_0000);
    Le16Bits(v % 0x1_0000);
    Le16Bits(v / 0x1_0000);
    assert ToBits(low + high) == ToBits(low) + ToBits(high);
    FlatAppend(ToBits(low), ToBits(high));
    hide ToBits, Flat;
    assert Le32(v) == low + high;
  }

  lemma {:induction false} Le32Bits(v: nat)
    requires v < 0x1_0000_0000
    ensures |Low(v, 32)| % 8 == 0 && ToBits(Le32(v)) == LeBytes(Low(v, 32))
  {
    Le32Flat(v);
    hide Low, ToBits, LeBytes, Flat;
    FlatOfLeBytes(Low(v, 32));
    FlatInjective(ToBits(Le32(v)), LeBytes(Low(v, 32)));
  }

  // ---- The self-checked message ----

  function Bit(b: bool): nat {
    if b then 1 else 0
  }

  lemma {:induction false} OneValue(w: seq<bool>, i: nat)
    requires i < |w|
    ensures Value(w[i..]) == Bit(w[i]) + 2 * Value(w[i + 1..])
  {
    assert w[i..][1..] == w[i + 1..];
  }

  function HexDigit(w: seq<bool>, i: nat): nat
    requires i + 4 <= |w|
  {
    Bit(w[i]) + 2 * Bit(w[i + 1]) + 4 * Bit(w[i + 2]) + 8 * Bit(w[i + 3])
  }

  lemma {:induction false} FourValue(w: seq<bool>, i: nat)
    requires i + 4 <= |w|
    ensures Value(w[i..]) == HexDigit(w, i) + 16 * Value(w[i + 4..])
  {
    hide Value, Bit;
    OneValue(w, i);
    OneValue(w, i + 1);
    OneValue(w, i + 2);
    OneValue(w, i + 3);
  }

  lemma {:induction false} ResidueDigits()
    ensures var w := Residue.RESIDUE;
            && HexDigit(w, 28) == 0x2 && HexDigit(w, 24) == 0x1 && HexDigit(w, 20) == 0x4 && HexDigit(w, 16) == 0x4
            && HexDigit(w, 12) == 0xD && HexDigit(w, 8) == 0xF && HexDigit(w, 4) == 0x1 && HexDigit(w, 0) == 0xC
  {
  }

  function HalfWord(w: seq<bool>, i: nat): nat
    requires i + 16 <= |w|
  {
    HexDigit(w, i) + 0x10 * HexDigit(w, i + 4) + 0x100 * HexDigit(w, i + 8) + 0x1000 * HexDigit(w, i + 12)
  }

  lemma {:induction false} HalfWordValue(w: seq<bool>, i: nat)
    requires i + 16 <= |w|
    ensures Value(w[i..]) == HalfWord(w, i) + 0x1_0000 * Value(w[i + 16..])
  {
    hide Value, HexDigit;
    FourValue(w, i);
    FourValue(w, i + 4);
    FourValue(w, i + 8);
    FourValue(w, i + 12);
  }

  lemma {:induction false} WordValue(w: u32)
    ensures Value(w) == HalfWord(w, 0) + 0x1_0000 * HalfWord(w, 16)
  {
    assert w[32..] == [] && w[0..] == w && Value([]) == 0;
    hide Value, HalfWord;
    HalfWordValue(w, 0);
    HalfWordValue(w, 16);
  }

  lemma {:induction false} ResidueValue()
    ensures Value(Residue.RESIDUE) == 0x2144_DF1C
  {
    ResidueDigits();
    hide Value, HexDigit, Residue.RESIDUE;
    WordValue(Residue.RESIDUE);
  }

  lemma {:induction false} ToBitsAppend(a: seq<Octet>, b: seq<Octet>)
    ensures ToBits(a + b) == ToBits(a) + ToBits(b)
  {
    hide Low;
  }

  lemma {:induction false} CrcIs(data: seq<Octet>)
    ensures Crc(data) == Value(Crc32.Checksum(ToBits(data)))
  {
  }

  // Every message followed by its own little-endian checksum has this one.
  lemma {:induction false} SelfCheckedCrc(data: seq<Octet>)
    ensures Crc(data + Le32(Crc(data))) == 0x2144_DF1C
  {
    var c := Crc32.Checksum(ToBits(data));
    hide *;
    CrcIs(data);
    LowOfValue(c);
    Le32Bits(Crc(data));
    ToBitsAppend(data, Le32(Crc(data)));
    CrcIs(data + Le32(Crc(data)));
    Residue.SelfCheckIs(ToBits(data));
    ResidueValue();
  }
}
