// The filter's 64-bit FNV-1a hash, kept in four 16-bit limbs because the language has no
// 64-bit integers.
module Fnv {
  import opened Texts

  const LIMB: nat := 0x1_0000
  const WORD: nat := 0x1_0000_0000
  const MODULUS: nat := 0x1_0000_0000_0000_0000
  const OFFSET_BASIS: nat := 0xcbf2_9ce4_8422_2325
  const PRIME: nat := 0x100_0000_01b3

  /** Bitwise exclusive or of two natural numbers. */
  function Xor(a: nat, b: nat): nat
    decreases a + b
  {
    if a == 0 && b == 0 then 0 else 2 * Xor(a / 2, b / 2) + (a + b) % 2
  }

  /** FNV-1a, 64 bits, folded over code units; over octets it is the hash of the FNV draft, section 2. */
  function Fnv1a(v: Text): nat {
    if v == [] then OFFSET_BASIS else (Xor(Fnv1a(v[..|v| - 1]), v[|v| - 1] as nat) * PRIME) % MODULUS
  }

  function Limbs(v0: nat, v1: nat, v2: nat, v3: nat): nat {
    v0 + v1 * LIMB + v2 * LIMB * LIMB + v3 * LIMB * LIMB * LIMB
  }

  function Pow2(k: nat): (p: nat)
    ensures p > 0
  {
    if k == 0 then 1 else 2 * Pow2(k - 1)
  }

  lemma XorStep(a: nat, b: nat)
    ensures Xor(a, b) == 2 * Xor(a / 2, b / 2) + (a + b) % 2
  {
  }

  lemma Doubled(high: nat, p: nat)
    ensures high * (2 * p) == 2 * (high * p)
  {
  }

  /** Exclusive or with a k-bit number leaves the higher bits alone. */
  lemma {:induction false} XorLow(high: nat, low: nat, c: nat, k: nat)
    requires low < Pow2(k) && c < Pow2(k)
    ensures Xor(high * Pow2(k) + low, c) == high * Pow2(k) + Xor(low, c)
    ensures Xor(low, c) < Pow2(k)
    decreases k
  {
    hide Xor;
    if k == 0 {
      XorZero(high);
      XorZero(0);
    } else {
      var p := Pow2(k - 1);
      var x := high * p;
      Doubled(high, p);
      XorLow(high, low / 2, c / 2, k - 1);
      hide Pow2;
      XorHalves(x, low, c);
    }
  }

  lemma XorHalves(x: nat, low: nat, c: nat)
    requires Xor(x + low / 2, c / 2) == x + Xor(low / 2, c / 2)
    ensures Xor(2 * x + low, c) == 2 * x + Xor(low, c)
    ensures Xor(low, c) == 2 * Xor(low / 2, c / 2) + (low + c) % 2
  {
    hide Xor;
    Halves(x, low, c);
    XorStep(2 * x + low, c);
    XorStep(low, c);
  }

  lemma Halves(x: nat, low: nat, c: nat)
    ensures (2 * x + low) / 2 == x + low / 2
    ensures (2 * x + low + c) % 2 == (low + c) % 2
  {
  }

  lemma {:induction false} XorZero(a: nat)
    ensures Xor(a, 0) == a
  {
    if a > 0 {
      XorZero(a / 2);
    }
  }

  lemma ModUnique(x: nat, q: nat, r: nat)
    requires x == q * MODULUS + r && r < MODULUS
    ensures x % MODULUS == r
  {
  }

  /** Sixteen-bit long multiplication with the carries of the loop body. */
  lemma MulPrime(v0: nat, v1: nat, v2: nat, v3: nat, t0: nat, t1: nat, t2: nat, t3: nat)
    requires v0 < LIMB && v1 < LIMB && v2 < LIMB && v3 < LIMB
    requires t0 == v0 * 0x1b3 && t1 == v1 * 0x1b3 + t0 / LIMB
    requires t2 == v2 * 0x1b3 + v0 * 256 + t1 / LIMB
    requires t3 == v3 * 0x1b3 + v1 * 256 + t2 / LIMB
    ensures Limbs(t0 % LIMB, t1 % LIMB, t2 % LIMB, t3 % LIMB) == (Limbs(v0, v1, v2, v3) * PRIME) % MODULUS
  {
    var q := t3 / LIMB + v2 * 256 + v3 * 256 * LIMB;
    var r := Limbs(t0 % LIMB, t1 % LIMB, t2 % LIMB, t3 % LIMB);
    assert Limbs(v0, v1, v2, v3) * PRIME == q * MODULUS + r;
    ModUnique(Limbs(v0, v1, v2, v3) * PRIME, q, r);
  }

  /** The first exclusive or of the loop body touches the lowest limb only. */
  lemma XorLimb(v0: nat, v1: nat, v2: nat, v3: nat, c: nat)
    requires v0 < LIMB && c < LIMB
    ensures Xor(Limbs(v0, v1, v2, v3), c) == Limbs(Xor(v0, c), v1, v2, v3)
    ensures Xor(v0, c) < LIMB
  {
    hide Xor;
    assert Pow2(16) == LIMB by {
      assert Pow2(4) == 16;
      assert Pow2(8) == 256;
      assert Pow2(12) == 4096;
    }
    hide Pow2;
    var high := v1 + v2 * LIMB + v3 * LIMB * LIMB;
    XorLow(high, v0, c, 16);
    assert Limbs(v0, v1, v2, v3) == high * LIMB + v0;
  }

  lemma Fnv1aStep(v: Text, i: nat)
    requires i < |v|
    ensures Fnv1a(v[..i + 1]) == (Xor(Fnv1a(v[..i]), v[i] as nat) * PRIME) % MODULUS
  {
    assert v[..i + 1][..i] == v[..i];
  }

  /**
   * The loop of locations(). The sums stay below 2^27, so the language's 32-bit shifts and
   * masks are exact: x << 8 is x * 256, x >>> 16 is x / 2^16, x & 0xffff is x mod 2^16.
   */
  method LimbHash(v: Text) returns (v0: nat, v1: nat, v2: nat, v3: nat)
    ensures v0 < LIMB && v1 < LIMB && v2 < LIMB && v3 < LIMB
    ensures Limbs(v0, v1, v2, v3) == Fnv1a(v)
  {
    hide Xor, Fnv1a;
    var fnv64PrimeX := 0x01b3;
    var t0, t1, t2, t3 := 0, 0, 0, 0;
    v0, v1, v2, v3 := 0x2325, 0x8422, 0x9ce4, 0xcbf2;
    assert Limbs(v0, v1, v2, v3) == Fnv1a(v[..0]) by {
      EmptyHash(v);
    }
    for i := 0 to |v|
      invariant v0 < LIMB && v1 < LIMB && v2 < LIMB && v3 < LIMB
      invariant Limbs(v0, v1, v2, v3) == Fnv1a(v[..i])
    {
      XorLimb(v0, v1, v2, v3, v[i] as nat);
      Fnv1aStep(v, i);
      v0 := Xor(v0, v[i] as nat);
      hide Limbs;
      t0 := v0 * fnv64PrimeX;
      t1 := v1 * fnv64PrimeX;
      t2 := v2 * fnv64PrimeX;
      t3 := v3 * fnv64PrimeX;
      t2 := t2 + v0 * 256;
      t3 := t3 + v1 * 256;
      t1 := t1 + t0 / LIMB;
      t2 := t2 + t1 / LIMB;
      assert t1 < 0x800_0000 && t2 < 0x800_0000 && t3 + t2 / LIMB < 0x800_0000;
      MulPrime(v0, v1, v2, v3, t0, t1, t2, t3 + t2 / LIMB);
      v0 := t0 % LIMB;
      v1 := t1 % LIMB;
      v3 := (t3 + t2 / LIMB) % LIMB;
      v2 := t2 % LIMB;
    }
    assert v[..|v|] == v;
  }

  lemma EmptyHash(v: Text)
    ensures Fnv1a(v[..0]) == Limbs(0x2325, 0x8422, 0x9ce4, 0xcbf2)
  {
  }

  /** Two published test vectors: the empty string and "a". */
  lemma TestVectors()
    ensures Fnv1a([]) == 0xcbf2_9ce4_8422_2325
    ensures Fnv1a([97]) == 0xaf63_dc4c_8601_ec8c
  {
    hide Xor;
    XorWithA(OFFSET_BASIS);
    var a: CodeUnit := 97;
    assert [a][..0] == [];
    assert Fnv1a([]) == OFFSET_BASIS;
    assert Fnv1a([a]) == (Xor(OFFSET_BASIS, 97) * PRIME) % MODULUS;
  }

  lemma XorWithA(n: nat)
    requires n % 256 == 0x25
    ensures Xor(n, 97) == n + 0x1f
  {
    assert Pow2(8) == 256;
    hide Xor, Pow2;
    XorLow(n / 256, 0x25, 97, 8);
    XorStep(0x25, 97);
    XorStep(0x12, 48);
    XorStep(0x9, 24);
    XorStep(0x4, 12);
    XorStep(0x2, 6);
    XorStep(0x1, 3);
    XorStep(0x0, 1);
    XorZero(0);
  }
}
