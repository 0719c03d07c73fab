// Bits of 32-bit words, and the parallel bit count over them. A word stands for the signed
// integer with the same bits. The language takes every operand of a bitwise operator modulo
// 2^32, and no intermediate sum or product here leaves the exact range of its numbers, so
// arithmetic modulo 2^32 gives the same bits.
module BitWords {
  function Mask(i: nat): bv32
    requires i < 32
  {
    1 << i
  }

  function And(a: bv32, b: bv32): bv32 {
    a & b
  }

  function Or(a: bv32, b: bv32): bv32 {
    a | b
  }

  predicate Meets(w: bv32, mask: bv32) {
    And(w, mask) != 0
  }

  predicate Bit(w: bv32, i: nat)
    requires i < 32
  {
    Meets(w, Mask(i))
  }

  lemma OrIgnores(a: bv32, b: bv32, mask: bv32)
    requires And(a, mask) == 0
    ensures And(Or(a, b), mask) == And(b, mask)
  {
  }

  lemma OrKeeps(a: bv32, b: bv32, mask: bv32)
    requires And(Or(a, b), mask) == 0
    ensures And(a, mask) == 0
  {
  }

  lemma OrMeets(a: bv32, b: bv32, mask: bv32)
    ensures Meets(Or(a, b), mask) <==> Meets(a, mask) || Meets(b, mask)
  {
    hide And, Or;
    if And(a, mask) == 0 {
      OrIgnores(a, b, mask);
    } else if And(Or(a, b), mask) == 0 {
      OrKeeps(a, b, mask);
    }
  }

  lemma OrBit(a: bv32, b: bv32, i: nat)
    requires i < 32
    ensures Bit(Or(a, b), i) <==> Bit(a, i) || Bit(b, i)
  {
    hide Mask, Meets, Or;
    OrMeets(a, b, Mask(i));
  }

  lemma AndMasked(a: bv32, b: bv32, mask: bv32)
    ensures And(And(a, b), mask) == And(And(a, mask), And(b, mask))
  {
  }

  lemma AndIsZero(x: bv32, y: bv32, mask: bv32)
    requires (x == 0 || x == mask) && (y == 0 || y == mask) && mask != 0
    ensures And(x, y) == 0 <==> x == 0 || y == 0
  {
  }

  predicate OneBitOf(a: bv32, mask: bv32) {
    mask != 0 && (And(a, mask) == 0 || And(a, mask) == mask)
  }

  lemma MaskIsOneBit(a: bv32, i: nat)
    requires i < 32
    ensures OneBitOf(a, Mask(i))
  {
  }

  lemma AndMeets(a: bv32, b: bv32, mask: bv32)
    requires OneBitOf(a, mask) && OneBitOf(b, mask)
    ensures Meets(And(a, b), mask) <==> Meets(a, mask) && Meets(b, mask)
  {
    hide And;
    AndMasked(a, b, mask);
    AndIsZero(And(a, mask), And(b, mask), mask);
  }

  lemma AndBit(a: bv32, b: bv32, i: nat)
    requires i < 32
    ensures Bit(And(a, b), i) <==> Bit(a, i) && Bit(b, i)
  {
    hide Mask, Meets, OneBitOf, And;
    MaskIsOneBit(a, i);
    MaskIsOneBit(b, i);
    AndMeets(a, b, Mask(i));
  }

  lemma MaskBit(i: nat, j: nat)
    requires i < 32 && j < 32
    ensures Bit(Mask(j), i) <==> i == j
  {
  }

  /** The mask of the bits below position i. */
  function LowMask(i: nat): bv32
    requires i < 32
  {
    Mask(i) - 1
  }

  lemma MaskDoubles(i: nat, j: nat)
    requires j == i + 1 < 32
    ensures Mask(j) == Mask(i) + Mask(i) && Mask(i) & (Mask(i) - 1) == 0
  {
  }

  lemma NextLowMask(mask: bv32, next: bv32)
    requires next == mask + mask && mask & (mask - 1) == 0
    ensures next - 1 == (mask - 1) | mask
  {
  }

  lemma LowMaskGrows(i: nat, j: nat)
    requires j == i + 1 < 32
    ensures LowMask(j) == Or(LowMask(i), Mask(i))
  {
    hide Mask;
    MaskDoubles(i, j);
    NextLowMask(Mask(i), Mask(j));
  }

  lemma AllBits()
    ensures Or(LowMask(31), Mask(31)) == 0xffff_ffff
  {
  }

  lemma JoinMasks(a: bv32, b: bv32, low: bv32, mask: bv32, all: bv32)
    requires a & low == b & low && a & mask == b & mask && all == low | mask
    ensures a & all == b & all
  {
  }

  lemma AndOfOr(a: bv32, b: bv32, low: bv32, mask: bv32)
    requires And(a, low) == And(b, low) && And(a, mask) == And(b, mask)
    ensures And(a, Or(low, mask)) == And(b, Or(low, mask))
  {
    JoinMasks(a, b, low, mask, Or(low, mask));
  }

  lemma SameMasked(a: bv32, b: bv32, i: nat)
    requires i < 32 && (Bit(a, i) <==> Bit(b, i))
    ensures And(a, Mask(i)) == And(b, Mask(i))
  {
    MaskIsOneBit(a, i);
    MaskIsOneBit(b, i);
    hide Mask, And;
  }

  lemma {:induction false} SameLow(a: bv32, b: bv32, i: nat)
    requires i < 32 && forall j :: 0 <= j < i ==> (Bit(a, j) <==> Bit(b, j))
    ensures And(a, LowMask(i)) == And(b, LowMask(i))
  {
    if i == 0 {
    } else {
      SameLow(a, b, i - 1);
      hide *;
      SameMasked(a, b, i - 1);
      LowMaskGrows(i - 1, i);
      AndOfOr(a, b, LowMask(i - 1), Mask(i - 1));
    }
  }

  lemma Whole(a: bv32)
    ensures And(a, 0xffff_ffff) == a
  {
  }

  /** A word is its bits. */
  lemma SameBits(a: bv32, b: bv32)
    requires forall i :: 0 <= i < 32 ==> (Bit(a, i) <==> Bit(b, i))
    ensures a == b
  {
    hide *;
    SameLow(a, b, 31);
    SameMasked(a, b, 31);
    AndOfOr(a, b, LowMask(31), Mask(31));
    AllBits();
    Whole(a);
    Whole(b);
  }

  function BitValue(w: bv32, i: nat): nat
    requires i < 32
  {
    if Bit(w, i) then 1 else 0
  }

  /** How many of the n lowest bits are set. */
  function Ones(w: bv32, n: nat): nat
    requires n <= 32
  {
    if n == 0 then 0 else Ones(w, n - 1) + BitValue(w, n - 1)
  }

  /** Arithmetic shift right of the signed integer. */
  function Sar(v: bv32, k: bv5): bv32 {
    if v & 0x8000_0000 != 0 then (v >> k) | !(0xffff_ffff >> k) else v >> k
  }

  function Field(v: bv32, i: bv5, mask: bv32): bv32 {
    (v >> i) & mask
  }

  predicate IsSum(c: bv32, a: bv32, b: bv32) {
    c == a + b
  }

  // The masks hide the copies of the sign bit that the arithmetic shifts bring in.

  lemma SignMasked1(v: bv32)
    ensures Sar(v, 1) & 0x5555_5555 == (v >> 1) & 0x5555_5555
  {
  }

  lemma SignMasked2(v: bv32)
    ensures Sar(v, 2) & 0x3333_3333 == (v >> 2) & 0x3333_3333
  {
  }

  lemma NoSign4(v: bv32)
    requires v & 0x8888_8888 == 0
    ensures Sar(v, 4) == v >> 4
  {
  }

  // Each stage adds neighbouring fields of the one before.

  ghost predicate PairsOf(v: bv32, p: bv32) {
    forall i: bv5 :: i & 1 == 0 ==> IsSum(Field(p, i, 3), Field(v, i, 1), Field(v, i + 1, 1))
  }

  ghost predicate NibblesOf(p: bv32, n: bv32) {
    forall i: bv5 :: i & 3 == 0 ==> IsSum(Field(n, i, 15), Field(p, i, 3), Field(p, i + 2, 3))
  }

  ghost predicate BytesOf(n: bv32, b: bv32) {
    forall i: bv5 :: i & 7 == 0 ==> IsSum(Field(b, i, 255), Field(n, i, 15), Field(n, i + 4, 15))
  }

  lemma PairStage(v: bv32, s: bv32, p: bv32, i: bv5)
    requires i & 1 == 0 && s == (v >> 1) & 0x5555_5555 && p == v - s
    ensures IsSum(Field(p, i, 3), Field(v, i, 1), Field(v, i + 1, 1))
  {
  }

  lemma NibbleStage(p: bv32, s: bv32, n: bv32, i: bv5)
    requires i & 3 == 0 && s == (p >> 2) & 0x3333_3333 && n == (p & 0x3333_3333) + s
    ensures IsSum(Field(n, i, 15), Field(p, i, 3), Field(p, i + 2, 3))
  {
  }

  lemma SmallNibbles(p: bv32, s: bv32, n: bv32)
    requires s == (p >> 2) & 0x3333_3333 && n == (p & 0x3333_3333) + s
    ensures n & 0x8888_8888 == 0
  {
  }

  lemma ByteStage(n: bv32, s: bv32, b: bv32, i: bv5)
    requires i & 7 == 0 && s == n >> 4 && n & 0x8888_8888 == 0 && b == (n + s) & 0x0f0f_0f0f
    ensures IsSum(Field(b, i, 255), Field(n, i, 15), Field(n, i + 4, 15))
  {
  }

  lemma SmallBytes(n: bv32, s: bv32, b: bv32)
    requires b == (n + s) & 0x0f0f_0f0f
    ensures b & 0xf0f0_f0f0 == 0
  {
  }

  // Sums of small fields as numbers.

  lemma SmallField(v: bv32, i: bv5, mask: bv32)
    requires mask < 16
    ensures Field(v, i, mask) < 16
  {
  }

  lemma SmallByte(b: bv32, i: bv5)
    requires b & 0xf0f0_f0f0 == 0 && i & 7 == 0
    ensures Field(b, i, 255) < 16
  {
  }

  lemma SmallSum(c: bv32, a: bv32, b: bv32)
    requires IsSum(c, a, b) && a < 16 && b < 16
    ensures c as nat == a as nat + b as nat && c < 32
  {
  }

  lemma MediumSum(c: bv32, a: bv32, b: bv32)
    requires IsSum(c, a, b) && a < 32 && b < 32
    ensures c as nat == a as nat + b as nat
  {
  }

  lemma PairCount(v: bv32, p: bv32, i: bv5)
    requires PairsOf(v, p) && i & 1 == 0
    ensures Field(p, i, 3) as nat == Field(v, i, 1) as nat + Field(v, i + 1, 1) as nat
  {
    hide Field, IsSum;
    SmallField(v, i, 1);
    SmallField(v, i + 1, 1);
    SmallSum(Field(p, i, 3), Field(v, i, 1), Field(v, i + 1, 1));
  }

  lemma NibbleCount(p: bv32, n: bv32, i: bv5)
    requires NibblesOf(p, n) && i & 3 == 0
    ensures Field(n, i, 15) as nat == Field(p, i, 3) as nat + Field(p, i + 2, 3) as nat
  {
    hide Field, IsSum;
    SmallField(p, i, 3);
    SmallField(p, i + 2, 3);
    SmallSum(Field(n, i, 15), Field(p, i, 3), Field(p, i + 2, 3));
  }

  lemma ByteCount(n: bv32, b: bv32, i: bv5)
    requires BytesOf(n, b) && i & 7 == 0
    ensures Field(b, i, 255) as nat == Field(n, i, 15) as nat + Field(n, i + 4, 15) as nat
  {
    hide Field, IsSum;
    SmallField(n, i, 15);
    SmallField(n, i + 4, 15);
    SmallSum(Field(b, i, 255), Field(n, i, 15), Field(n, i + 4, 15));
  }

  lemma Aligned(i: bv5)
    requires i & 7 == 0
    ensures i & 3 == 0 && (i + 4) & 3 == 0
    ensures i & 1 == 0 && (i + 2) & 1 == 0 && (i + 4) & 1 == 0 && (i + 6) & 1 == 0
    ensures i + 2 + 1 == i + 3 && i + 4 + 1 == i + 5 && i + 6 + 1 == i + 7 && i + 4 + 2 == i + 6
  {
  }

  /** After three stages each byte holds the number of bits set in it. */
  lemma BitsOfByte(v: bv32, p: bv32, n: bv32, b: bv32, i: bv5)
    requires PairsOf(v, p) && NibblesOf(p, n) && BytesOf(n, b) && i & 7 == 0
    ensures Field(b, i, 255) as nat
      == Field(v, i, 1) as nat + Field(v, i + 1, 1) as nat + Field(v, i + 2, 1) as nat + Field(v, i + 3, 1) as nat
       + Field(v, i + 4, 1) as nat + Field(v, i + 5, 1) as nat + Field(v, i + 6, 1) as nat + Field(v, i + 7, 1) as nat
  {
    hide *;
    Aligned(i);
    PairCount(v, p, i);
    PairCount(v, p, i + 2);
    PairCount(v, p, i + 4);
    PairCount(v, p, i + 6);
    NibbleCount(p, n, i);
    NibbleCount(p, n, i + 4);
    ByteCount(n, b, i);
  }

  function Plus(a: bv32, b: bv32): bv32 {
    a + b
  }

  /** The multiplication gathers the four bytes in the topmost one, and the sign stays clear. */
  lemma Gather(b: bv32)
    requires b & 0xf0f0_f0f0 == 0
    ensures Sar(b * 0x0101_0101, 24)
      == Plus(Plus(Field(b, 0, 255), Field(b, 8, 255)), Plus(Field(b, 16, 255), Field(b, 24, 255)))
  {
  }

  lemma PlusSmall(a: bv32, b: bv32)
    requires a < 16 && b < 16
    ensures Plus(a, b) as nat == a as nat + b as nat && Plus(a, b) < 32
  {
    SmallSum(Plus(a, b), a, b);
  }

  lemma PlusMedium(a: bv32, b: bv32)
    requires a < 32 && b < 32
    ensures Plus(a, b) as nat == a as nat + b as nat
  {
    MediumSum(Plus(a, b), a, b);
  }

  lemma GatherCount(b: bv32)
    requires b & 0xf0f0_f0f0 == 0
    ensures Sar(b * 0x0101_0101, 24) as nat
      == Field(b, 0, 255) as nat + Field(b, 8, 255) as nat + Field(b, 16, 255) as nat + Field(b, 24, 255) as nat
  {
    hide *;
    SmallByte(b, 0);
    SmallByte(b, 8);
    SmallByte(b, 16);
    SmallByte(b, 24);
    Gather(b);
    PlusSmall(Field(b, 0, 255), Field(b, 8, 255));
    PlusSmall(Field(b, 16, 255), Field(b, 24, 255));
    PlusMedium(Plus(Field(b, 0, 255), Field(b, 8, 255)), Plus(Field(b, 16, 255), Field(b, 24, 255)));
  }

  function MaskAt(i: bv5): bv32 {
    1 << i
  }

  lemma MaskIsMaskAt(n: nat, i: bv5)
    requires n < 32 && i as nat == n
    ensures Mask(n) == MaskAt(i)
  {
  }

  lemma FieldMeets(v: bv32, i: bv5)
    ensures Field(v, i, 1) == if Meets(v, MaskAt(i)) then 1 else 0
  {
  }

  lemma FieldIsBit(v: bv32, n: nat, i: bv5)
    requires n < 32 && i as nat == n
    ensures Field(v, i, 1) as nat == BitValue(v, n)
  {
    hide Field, Mask, MaskAt, Meets;
    FieldMeets(v, i);
    MaskIsMaskAt(n, i);
  }

  lemma Later(i: bv5, k: bv5)
    requires i as nat + k as nat < 32
    ensures (i + k) as nat == i as nat + k as nat
  {
  }

  lemma LaterBit(v: bv32, n: nat, i: bv5, k: nat, j: bv5)
    requires i as nat == n && j as nat == k && n + k < 32
    ensures Field(v, i + j, 1) as nat == BitValue(v, n + k)
  {
    hide Field, BitValue;
    Later(i, j);
    FieldIsBit(v, n + k, i + j);
  }

  lemma OnesOfByte(v: bv32, n: nat, i: bv5)
    requires i as nat == n <= 24
    ensures Ones(v, n + 8) - Ones(v, n)
      == Field(v, i, 1) as nat + Field(v, i + 1, 1) as nat + Field(v, i + 2, 1) as nat + Field(v, i + 3, 1) as nat
       + Field(v, i + 4, 1) as nat + Field(v, i + 5, 1) as nat + Field(v, i + 6, 1) as nat + Field(v, i + 7, 1) as nat
  {
    hide *;
    FieldIsBit(v, n, i);
    LaterBit(v, n, i, 1, 1);
    LaterBit(v, n, i, 2, 2);
    LaterBit(v, n, i, 3, 3);
    LaterBit(v, n, i, 4, 4);
    LaterBit(v, n, i, 5, 5);
    LaterBit(v, n, i, 6, 6);
    LaterBit(v, n, i, 7, 7);
    EightOnes(v, n);
  }

  lemma EightOnes(v: bv32, n: nat)
    requires n <= 24
    ensures Ones(v, n + 8) - Ones(v, n) == BitValue(v, n) + BitValue(v, n + 1) + BitValue(v, n + 2) + BitValue(v, n + 3)
      + BitValue(v, n + 4) + BitValue(v, n + 5) + BitValue(v, n + 6) + BitValue(v, n + 7)
  {
    hide BitValue;
    assert Ones(v, n + 2) == Ones(v, n) + BitValue(v, n) + BitValue(v, n + 1);
    assert Ones(v, n + 4) == Ones(v, n + 2) + BitValue(v, n + 2) + BitValue(v, n + 3);
    assert Ones(v, n + 6) == Ones(v, n + 4) + BitValue(v, n + 4) + BitValue(v, n + 5);
    assert Ones(v, n + 8) == Ones(v, n + 6) + BitValue(v, n + 6) + BitValue(v, n + 7);
  }

  lemma StagesCount(v: bv32, p: bv32, n: bv32, b: bv32)
    requires PairsOf(v, p) && NibblesOf(p, n) && BytesOf(n, b)
    ensures Field(b, 0, 255) as nat + Field(b, 8, 255) as nat + Field(b, 16, 255) as nat + Field(b, 24, 255) as nat
      == Ones(v, 32)
  {
    hide PairsOf, NibblesOf, BytesOf, Field, Ones;
    BitsOfByte(v, p, n, b, 0);
    BitsOfByte(v, p, n, b, 8);
    BitsOfByte(v, p, n, b, 16);
    BitsOfByte(v, p, n, b, 24);
    OnesOfByte(v, 0, 0);
    OnesOfByte(v, 8, 8);
    OnesOfByte(v, 16, 16);
    OnesOfByte(v, 24, 24);
    NoOnes(v);
  }

  lemma NoOnes(v: bv32)
    ensures Ones(v, 0) == 0
  {
  }

  lemma PairsAre(v: bv32, s: bv32, p: bv32)
    requires s == (v >> 1) & 0x5555_5555 && p == v - s
    ensures PairsOf(v, p)
  {
    hide Field, IsSum;
    forall i: bv5 | i & 1 == 0
      ensures IsSum(Field(p, i, 3), Field(v, i, 1), Field(v, i + 1, 1))
    {
      PairStage(v, s, p, i);
    }
  }

  lemma NibblesAre(p: bv32, s: bv32, n: bv32)
    requires s == (p >> 2) & 0x3333_3333 && n == (p & 0x3333_3333) + s
    ensures NibblesOf(p, n) && n & 0x8888_8888 == 0
  {
    hide Field, IsSum;
    SmallNibbles(p, s, n);
    forall i: bv5 | i & 3 == 0
      ensures IsSum(Field(n, i, 15), Field(p, i, 3), Field(p, i + 2, 3))
    {
      NibbleStage(p, s, n, i);
    }
  }

  lemma BytesAre(n: bv32, s: bv32, b: bv32)
    requires s == n >> 4 && n & 0x8888_8888 == 0 && b == (n + s) & 0x0f0f_0f0f
    ensures BytesOf(n, b) && b & 0xf0f0_f0f0 == 0
  {
    hide Field, IsSum;
    SmallBytes(n, s, b);
    forall i: bv5 | i & 7 == 0
      ensures IsSum(Field(b, i, 255), Field(n, i, 15), Field(n, i + 4, 15))
    {
      ByteStage(n, s, b, i);
    }
  }

  method AddPairs(v: bv32) returns (p: bv32)
    ensures PairsOf(v, p)
  {
    hide *;
    SignMasked1(v);
    var s := Sar(v, 1) & 0x5555_5555;
    p := v - s;
    PairsAre(v, s, p);
  }

  method AddNibbles(p: bv32) returns (n: bv32)
    ensures NibblesOf(p, n) && n & 0x8888_8888 == 0
  {
    hide *;
    SignMasked2(p);
    var s := Sar(p, 2) & 0x3333_3333;
    n := (p & 0x3333_3333) + s;
    NibblesAre(p, s, n);
  }

  method AddBytes(n: bv32) returns (b: bv32)
    requires n & 0x8888_8888 == 0
    ensures BytesOf(n, b) && b & 0xf0f0_f0f0 == 0
  {
    hide *;
    NoSign4(n);
    var s := Sar(n, 4);
    b := (n + s) & 0x0f0f_0f0f;
    BytesAre(n, s, b);
  }

  /** The parallel count: it is the number of set bits of the word. */
  method Popcnt(word: bv32) returns (count: bv32)
    ensures count as nat == Ones(word, 32)
  {
    hide *;
    var p := AddPairs(word);
    var n := AddNibbles(p);
    var v := AddBytes(n);
    StagesCount(word, p, n, v);
    GatherCount(v);
    count := Sar(v * 0x0101_0101, 24);
  }
}
