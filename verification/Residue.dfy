// The number that the checksum of a self-checked message always is, computed on
// machine words.
module Residue {
  import opened Bits
  import opened Crc32

  // 0x2144_DF1C
  const RESIDUE: u32 := [
    false, false, true, true, true, false, false, false,
    true, true, true, true, true, false, true, true,
    false, false, true, false, false, false, true, false,
    true, false, false, false, false, true, false, false
  ]

  function Odd(v: bv32): bool {
    v & 1 == 1
  }

  function Half(v: bv32): bv32 {
    v >> 1
  }

  function Sum(a: bv32, b: bv32): bv32 {
    a ^ b
  }

  // The n lowest bits of a word.
  function Word(v: bv32, n: nat): (r: seq<bool>)
    ensures |r| == n
    decreases n
  {
    if n == 0 then [] else [Odd(v)] + Word(Half(v), n - 1)
  }

  function StepWord(v: bv32): bv32 {
    if Odd(v) then Sum(Half(v), 0xEDB8_8320) else Half(v)
  }

  // ---- Words as bit lists ----

  lemma {:induction false} SumBits(a: bv32, b: bv32)
    ensures Odd(Sum(a, b)) <==> Odd(a) != Odd(b)
    ensures Half(Sum(a, b)) == Sum(Half(a), Half(b))
  {
  }

  lemma {:induction false} SumWord(a: bv32, b: bv32, n: nat)
    ensures Word(Sum(a, b), n) == Xor(Word(a, n), Word(b, n))
    decreases n
  {
    hide Odd, Half, Sum;
    if n > 0 {
      SumBits(a, b);
      SumWord(Half(a), Half(b), n - 1);
    }
  }

  function ShiftedDown(v: bv32, n: nat): bv32
    decreases n
  {
    if n == 0 then v else ShiftedDown(Half(v), n - 1)
  }

  lemma {:induction false} WordSplit(v: bv32, m: nat, n: nat)
    ensures Word(v, m + n) == Word(v, m) + Word(ShiftedDown(v, m), n)
    decreases m
  {
    hide Odd, Half;
    if m > 0 {
      WordSplit(Half(v), m - 1, n);
    } else {
      assert Word(v, 0) + Word(v, n) == Word(v, n);
    }
  }

  lemma {:induction false} ShiftedAdd(v: bv32, m: nat, n: nat)
    ensures ShiftedDown(v, m + n) == ShiftedDown(ShiftedDown(v, m), n)
    decreases m
  {
    hide Half;
    if m > 0 {
      ShiftedAdd(Half(v), m - 1, n);
    }
  }

  function Eighth(v: bv32): bv32 {
    v >> 8
  }

  lemma {:induction false} EighthIs(v: bv32)
    ensures Eighth(v) == Half(Half(Half(Half(Half(Half(Half(Half(v))))))))
    ensures Eighth(Eighth(Eighth(Eighth(v)))) == 0
  {
  }

  lemma {:induction false} ShiftedEight(v: bv32)
    ensures ShiftedDown(v, 8) == Eighth(v)
  {
    EighthIs(v);
    hide Half, Eighth;
    var half := Half(Half(Half(Half(v))));
    assert ShiftedDown(v, 4) == half && ShiftedDown(half, 4) == Half(Half(Half(Half(half))));
    ShiftedAdd(v, 4, 4);
  }

  lemma {:induction false} ShiftedOut(v: bv32)
    ensures ShiftedDown(v, 32) == 0
  {
    EighthIs(v);
    hide ShiftedDown, Eighth;
    ShiftedEight(v);
    ShiftedEight(Eighth(v));
    ShiftedEight(Eighth(Eighth(v)));
    ShiftedEight(Eighth(Eighth(Eighth(v))));
    ShiftedAdd(v, 8, 8);
    ShiftedAdd(v, 16, 8);
    ShiftedAdd(v, 24, 8);
  }

  lemma {:induction false} HalfWord(v: bv32)
    ensures Word(Half(v), 32) == Shr(Word(v, 32))
  {
    ShiftedOut(v);
    assert Word(0, 1) == [false];
    hide Odd, Half;
    WordSplit(v, 32, 1);
    assert Word(v, 33) == [Odd(v)] + Word(Half(v), 32);
    assert Word(Half(v), 32) == Word(v, 33)[1..];
  }

  lemma {:induction false} OddWord(v: bv32)
    ensures Word(v, 32)[0] == Odd(v)
  {
    hide Odd, Half;
  }

  lemma {:induction false} StepIs(v: bv32)
    requires Word(0xEDB8_8320, 32) == POLY
    ensures Step(Word(v, 32)) == Word(StepWord(v), 32)
  {
    OddWord(v);
    HalfWord(v);
    SumWord(Half(v), 0xEDB8_8320, 32);
    hide Word, Odd, Half, Sum, Shr, Xor;
  }

  // ---- The words of this proof ----

  lemma {:induction false} WordOfBytes(v: bv32)
    ensures Word(v, 32) ==
            Word(v, 8) + Word(Eighth(v), 8) + Word(Eighth(Eighth(v)), 8) + Word(Eighth(Eighth(Eighth(v))), 8)
  {
    hide Word, Eighth;
    WordSplit(v, 8, 24);
    ShiftedEight(v);
    WordSplit(Eighth(v), 8, 16);
    ShiftedEight(Eighth(v));
    WordSplit(Eighth(Eighth(v)), 8, 8);
    ShiftedEight(Eighth(Eighth(v)));
  }

  function Nibble(v: bv32): (r: seq<bool>)
    ensures |r| == 4
  {
    [Odd(v), Odd(Half(v)), Odd(Half(Half(v))), Odd(Half(Half(Half(v))))]
  }

  function Sixteenth(v: bv32): bv32 {
    Half(Half(Half(Half(v))))
  }

  lemma {:induction false} FourBits(v: bv32)
    ensures Word(v, 4) == Nibble(v) && ShiftedDown(v, 4) == Sixteenth(v)
  {
    hide Odd, Half;
    assert Word(v, 4) == [Odd(v)] + Word(Half(v), 3);
    assert Word(Half(v), 3) == [Odd(Half(v))] + Word(Half(Half(v)), 2);
    assert Word(Half(Half(v)), 2) == [Odd(Half(Half(v)))] + Word(Half(Half(Half(v))), 1);
    assert Word(Half(Half(Half(v))), 1) == [Odd(Half(Half(Half(v))))] + Word(Half(Half(Half(Half(v)))), 0);
  }

  lemma {:induction false} EightBits(v: bv32)
    ensures Word(v, 8) == Nibble(v) + Nibble(Sixteenth(v))
  {
    hide Word, ShiftedDown, Nibble, Sixteenth;
    WordSplit(v, 4, 4);
    FourBits(v);
    FourBits(Sixteenth(v));
  }

  lemma {:induction false} PolyBytes()
    ensures Word(0xEDB88320, 8) == [false, false, false, false, false, true, false, false]
    ensures Word(0xEDB883, 8) == [true, true, false, false, false, false, false, true]
    ensures Word(0xEDB8, 8) == [false, false, false, true, true, true, false, true]
    ensures Word(0xED, 8) == [true, false, true, true, false, true, true, true]
  {
    EightBits(0xEDB88320);
    EightBits(0xEDB883);
    EightBits(0xEDB8);
    EightBits(0xED);
    hide Word;
  }

  lemma {:induction false} OnesBytes()
    ensures Word(0xFFFFFFFF, 8) == [true, true, true, true, true, true, true, true]
    ensures Word(0xFFFFFF, 8) == [true, true, true, true, true, true, true, true]
    ensures Word(0xFFFF, 8) == [true, true, true, true, true, true, true, true]
    ensures Word(0xFF, 8) == [true, true, true, true, true, true, true, true]
  {
    EightBits(0xFFFFFFFF);
    EightBits(0xFFFFFF);
    EightBits(0xFFFF);
    EightBits(0xFF);
    hide Word;
  }

  lemma {:induction false} ResidueBytes()
    ensures Word(0x2144DF1C, 8) == [false, false, true, true, true, false, false, false]
    ensures Word(0x2144DF, 8) == [true, true, true, true, true, false, true, true]
    ensures Word(0x2144, 8) == [false, false, true, false, false, false, true, false]
    ensures Word(0x21, 8) == [true, false, false, false, false, true, false, false]
  {
    EightBits(0x2144DF1C);
    EightBits(0x2144DF);
    EightBits(0x2144);
    EightBits(0x21);
    hide Word;
  }

  lemma {:induction false} PolyWord()
    ensures Word(0xEDB8_8320, 32) == POLY
  {
    WordOfBytes(0xEDB8_8320);
    PolyBytes();
    hide Word;
    assert Eighth(0xEDB8_8320) == 0xED_B883 && Eighth(0xED_B883) == 0xEDB8 && Eighth(0xEDB8) == 0xED;
  }

  lemma {:induction false} OnesWord()
    ensures Word(0xFFFF_FFFF, 32) == Ones(32)
  {
    WordOfBytes(0xFFFF_FFFF);
    OnesBytes();
    hide Word;
    assert Eighth(0xFFFF_FFFF) == 0xFF_FFFF && Eighth(0xFF_FFFF) == 0xFFFF && Eighth(0xFFFF) == 0xFF;
  }

  lemma {:induction false} ResidueWord()
    ensures Word(0x2144_DF1C, 32) == RESIDUE
  {
    WordOfBytes(0x2144_DF1C);
    ResidueBytes();
    hide Word;
    assert Eighth(0x2144_DF1C) == 0x21_44DF && Eighth(0x21_44DF) == 0x2144 && Eighth(0x2144) == 0x21;
  }

  // ---- Thirty-two turns of the all-ones register ----

  function EightSteps(v: bv32): bv32 {
    StepWord(StepWord(StepWord(StepWord(StepWord(StepWord(StepWord(StepWord(v))))))))
  }

  lemma {:induction false} EightIs(v: bv32)
    ensures Steps(Word(v, 32), 8) == Word(EightSteps(v), 32)
  {
    PolyWord();
    hide Word, StepWord, Step, POLY;
    var v2 := StepWord(StepWord(v));
    var v4 := StepWord(StepWord(v2));
    var v6 := StepWord(StepWord(v4));
    TwoSteps(v);
    TwoSteps(v2);
    TwoSteps(v4);
    TwoSteps(v6);
    StepsAdd(Word(v, 32), 2, 2);
    StepsAdd(Word(v, 32), 4, 2);
    StepsAdd(Word(v, 32), 6, 2);
    hide Steps;
  }

  lemma {:induction false} TwoSteps(v: bv32)
    ensures Steps(Word(v, 32), 2) == Word(StepWord(StepWord(v)), 32)
  {
    PolyWord();
    StepIs(v);
    StepIs(StepWord(v));
    hide Word, StepWord, Step, POLY;
    assert Steps(Word(v, 32), 2) == Steps(Step(Word(v, 32)), 1) == Steps(Step(Step(Word(v, 32))), 0);
  }

  lemma {:induction false} Computed()
    ensures EightSteps(0xFFFF_FFFF) == 0x2DFD_1072
    ensures EightSteps(0x2DFD_1072) == 0xBE26_ED00
    ensures EightSteps(0xBE26_ED00) == 0x00BE_26ED
    ensures EightSteps(0x00BE_26ED) == 0xDEBB_20E3
    ensures Sum(0xDEBB_20E3, 0xFFFF_FFFF) == 0x2144_DF1C
  {
  }

  lemma {:induction false} NotIsXor(a: u32)
    ensures Not(a) == Xor(a, Ones(32))
  {
  }

  // Appending its own little-endian checksum sends every message to this number.
  lemma {:induction false} SelfCheckIs(data: seq<byte>)
    ensures Checksum(data + LeBytes(Checksum(data))) == RESIDUE
  {
    SelfCheckResidue(data);
    hide *;
    OnesWord();
    Computed();
    EightIs(0xFFFF_FFFF);
    EightIs(0x2DFD_1072);
    EightIs(0xBE26_ED00);
    EightIs(0x00BE_26ED);
    StepsAdd(Ones(32), 8, 8);
    StepsAdd(Ones(32), 16, 8);
    StepsAdd(Ones(32), 24, 8);
    NotIsXor(Word(0xDEBB_20E3, 32));
    SumWord(0xDEBB_20E3, 0xFFFF_FFFF, 32);
    ResidueWord();
  }
}
