// The k bit positions of an item: two halves of the hash, combined by enhanced double hashing.
module DoubleHashing {
  import opened Texts
  import opened Fnv

  const MAX_BITS: nat := 0x8000_0000

  /** The signed 32-bit integer with the bits of `u`. */
  function Int32(u: nat): (z: int)
    requires u < WORD
    ensures IsSigned(z, u)
  {
    if u >= 0x8000_0000 then u - WORD else u
  }

  /** Two's complement: the one number of the signed range that is `u` modulo 2^32. */
  predicate IsSigned(z: int, u: nat) {
    -0x8000_0000 <= z < 0x8000_0000 && z % WORD == u
  }

  lemma SignedIsUnique(y: int, z: int, u: nat)
    requires IsSigned(y, u) && IsSigned(z, u)
    ensures y == z
  {
    assert y == (y / WORD) * WORD + u && z == (z / WORD) * WORD + u;
  }

  /** The language's `a % m`: the remainder takes the sign of the dividend. */
  function Rem(a: int, m: nat): int
    requires m > 0
  {
    if a >= 0 then a % m else -(-a % m)
  }

  /** `((a % m) + m) % m` is the mathematical residue. */
  lemma Residue(a: int, m: nat)
    requires m > 0
    ensures 0 <= a % m == Rem(Rem(a, m) + m, m)
  {
    if a >= 0 {
      AddModulus(a % m, m);
    } else {
      var r := -a % m;
      assert a == -(-a / m) * m - r by {
        assert -a == (-a / m) * m + r;
        assert -(-a / m) * m == -((-a / m) * m);
      }
      if r == 0 {
        ResidueIs(a, -(-a / m), 0, m);
        AddModulus(0, m);
      } else {
        assert a == (-(-a / m) - 1) * m + (m - r);
        ResidueIs(a, -(-a / m) - 1, m - r, m);
        SmallRem(m - r, m);
      }
    }
  }

  lemma SmallRem(r: nat, m: nat)
    requires r < m
    ensures r % m == r
  {
  }

  lemma AddModulus(r: nat, m: nat)
    requires r < m
    ensures (r + m) % m == r
  {
    ResidueIs(r + m, 1, r, m);
  }

  lemma ResidueIs(x: int, q: int, r: nat, m: nat)
    requires x == q * m + r && r < m
    ensures x % m == r
  {
    var d := x / m - q;
    assert x == (x / m) * m + x % m;
    assert d * m == r - x % m by {
      assert d * m == (x / m) * m - q * m;
    }
    if d != 0 {
      MultipleIsFar(d, m);
    }
  }

  lemma MultipleIsFar(d: int, m: nat)
    requires d != 0
    ensures d * m >= m || d * m <= -(m as int)
  {
    if d > 0 {
      assert (d - 1) * m >= 0;
    } else {
      assert (-d - 1) * m >= 0;
    }
  }

  /** Residues may be taken early. */
  lemma SumOfResidues(x: nat, y: nat, m: nat)
    requires m > 0
    ensures (x % m + y % m) % m == (x + y) % m
    ensures (x % m + y) % m == (x + y) % m
  {
    ResidueOfPart(x, y, m);
    ResidueOfPart(y, x % m, m);
  }

  lemma ResidueOfPart(x: nat, y: nat, m: nat)
    requires m > 0
    ensures (x % m + y) % m == (x + y) % m
  {
    var s := x % m + y;
    assert x == (x / m) * m + x % m;
    assert s == (s / m) * m + s % m;
    assert x + y == (x / m + s / m) * m + s % m;
    ResidueIs(x + y, x / m + s / m, s % m, m);
  }

  /** 0 + 1 + ... + n. */
  function Triangle(n: nat): nat {
    if n == 0 then 0 else Triangle(n - 1) + n
  }

  /** Sum of the first n - 1 triangle numbers. */
  function Pyramid(n: nat): nat {
    if n == 0 then 0 else Pyramid(n - 1) + Triangle(n - 1)
  }

  lemma {:induction false} TriangleClosed(n: nat)
    ensures 2 * Triangle(n) == n * n + n
  {
    if n > 0 {
      TriangleClosed(n - 1);
    }
  }

  lemma {:induction false} PyramidClosed(n: nat)
    ensures 6 * Pyramid(n) == n * n * n - n
  {
    if n > 0 {
      PyramidClosed(n - 1);
      TriangleClosed(n - 1);
      Cube(n - 1);
    }
  }

  lemma Cube(p: nat)
    ensures (p + 1) * (p + 1) * (p + 1) - (p + 1) == p * p * p - p + 3 * (p * p + p)
  {
    assert (p + 1) * (p + 1) == p * p + 2 * p + 1;
    assert (p * p + 2 * p + 1) * (p + 1) == p * p * p + 3 * (p * p) + 3 * p + 1;
  }

  /** The two starting values: the signed upper and lower halves of the hash, modulo m. */
  function Start(v: Text, m: nat): nat
    requires m > 0
  {
    Int32(Fnv1a(v) / WORD % WORD) % m
  }

  function Stride(v: Text, m: nat): nat
    requires m > 0
  {
    Int32(Fnv1a(v) % WORD) % m
  }

  /** Below m and congruent modulo m to the signed number with the 32 bits of `u`. */
  ghost predicate SignedResidue(a: nat, u: nat, m: nat)
    requires m > 0
  {
    a < m && exists z: int {:trigger IsSigned(z, u)} :: IsSigned(z, u) && (z - a) % m == 0
  }

  /** Only one number is, and it is what the double remainder computes. */
  lemma SignedResidueIs(a: nat, u: nat, m: nat)
    requires m > 0 && u < WORD
    ensures SignedResidue(a, u, m) <==> a == Int32(u) % m
  {
    var z := Int32(u);
    assert z == (z / m) * m + z % m;
    assert z - z % m == (z / m) * m;
    ResidueIs(z - z % m, z / m, 0, m);
    if SignedResidue(a, u, m) {
      var y: int :| IsSigned(y, u) && (y - a) % m == 0;
      SignedIsUnique(y, z, u);
      assert y - a == ((y - a) / m) * m;
      ResidueIs(z, (y - a) / m, a, m);
    }
  }

  /** The first position and the stride are the residues of the signed upper and lower halves. */
  lemma StartAndStride(v: Text, m: nat, a: nat, b: nat)
    requires m > 0
    ensures a == Start(v, m) <==> SignedResidue(a, Fnv1a(v) / WORD % WORD, m)
    ensures b == Stride(v, m) <==> SignedResidue(b, Fnv1a(v) % WORD, m)
  {
    hide Fnv1a;
    SignedResidueIs(a, Fnv1a(v) / WORD % WORD, m);
    SignedResidueIs(b, Fnv1a(v) % WORD, m);
  }

  /** Position i of an item, in closed form. */
  function Location(v: Text, m: nat, i: nat): nat
    requires m > 0
  {
    (Start(v, m) + i * Stride(v, m) + (i * i * i - i) / 6) % m
  }

  /** Enhanced double hashing: the signed halves of the 64-bit hash, then the cubic in the index. */
  ghost predicate DoubleHashed(v: Text, m: nat, locations: seq<nat>)
    requires m > 0
  {
    exists a: nat, b: nat ::
      && SignedResidue(a, Fnv1a(v) / WORD % WORD, m)
      && SignedResidue(b, Fnv1a(v) % WORD, m)
      && forall i :: 0 <= i < |locations| ==> locations[i] == (a + i * b + (i * i * i - i) / 6) % m
  }

  lemma LocationsAreHashed(v: Text, m: nat, locations: seq<nat>)
    requires m > 0 && forall i :: 0 <= i < |locations| ==> locations[i] == Location(v, m, i)
    ensures DoubleHashed(v, m, locations)
  {
    hide Fnv1a, Start, Stride, SignedResidue;
    StartAndStride(v, m, Start(v, m), Stride(v, m));
  }

  /** "a" in a filter of 960 bits: both halves of its hash are negative numbers. */
  lemma StartOfA(v: Text)
    requires v == [97]
    ensures Start(v, 960) == 524 && Stride(v, 960) == 780
  {
    hide Fnv1a;
    TestVectors();
    HalvesOfA(Fnv1a(v));
    ResidueIs(-0x509c_23b4, -1_408_761, 524, 960);
    ResidueIs(-0x79fe_1374, -2_131_974, 780, 960);
  }

  lemma HalvesOfA(h: nat)
    requires h == 0xaf63_dc4c_8601_ec8c
    ensures h / WORD % WORD == 0xaf63_dc4c && h % WORD == 0x8601_ec8c
  {
  }

  lemma LocationByPyramid(v: Text, m: nat, i: nat)
    requires m > 0
    ensures Location(v, m, i) == (Start(v, m) + i * Stride(v, m) + Pyramid(i)) % m
  {
    PyramidClosed(i);
  }

  /** One turn of the loop moves from position i - 1 to position i. */
  lemma NextLocation(v: Text, m: nat, i: nat, a: nat, b: nat)
    requires m > 0 && i > 0
    requires a == Location(v, m, i - 1) && b == (Stride(v, m) + Triangle(i - 1)) % m
    ensures (a + b) % m == Location(v, m, i)
    ensures (b + i) % m == (Stride(v, m) + Triangle(i)) % m
  {
    hide Fnv1a, Start, Stride, Location;
    var a0, b0 := Start(v, m), Stride(v, m);
    LocationByPyramid(v, m, i - 1);
    LocationByPyramid(v, m, i);
    SumOfResidues(a0 + (i - 1) * b0 + Pyramid(i - 1), b0 + Triangle(i - 1), m);
    assert (i - 1) * b0 + b0 == i * b0;
    SumOfResidues(b0 + Triangle(i - 1), i, m);
  }

  lemma FirstLocation(v: Text, m: nat)
    requires m > 0
    ensures Location(v, m, 0) == Start(v, m)
    ensures Stride(v, m) == (Stride(v, m) + Triangle(0)) % m
  {
    hide Fnv1a;
    SmallRem(Start(v, m), m);
    SmallRem(Stride(v, m), m);
  }

  // ---- How wide a stored location is ----

  /** The logarithm to base 2, rounded up. */
  function CeilLog2(x: nat): nat
    requires x > 0
  {
    if x == 1 then 0 else 1 + CeilLog2((x + 1) / 2)
  }

  lemma {:induction false} CeilLog2Bounds(x: nat)
    requires x > 0
    ensures x <= Pow2(CeilLog2(x))
    ensures x > 1 ==> Pow2(CeilLog2(x) - 1) < x
  {
    if x > 1 {
      CeilLog2Bounds((x + 1) / 2);
    }
  }

  lemma {:induction false} Pow2Increases(a: nat, b: nat)
    requires a <= b
    ensures Pow2(a) <= Pow2(b)
    decreases b
  {
    if a < b {
      Pow2Increases(a, b - 1);
    }
  }

  /** Bytes per location: the constructor's power of two, at most the widest element type. */
  function LocationBytes(m: nat): nat
    requires m > 1
  {
    var kbytes := Pow2(CeilLog2((CeilLog2(m) + 7) / 8));
    if kbytes == 1 then 1 else if kbytes == 2 then 2 else 4
  }

  /** What an unsigned element of that many bytes keeps of a value. */
  function Stored(bytes: nat, x: nat): nat {
    x % Pow2(8 * bytes)
  }

  /** No location is truncated. */
  lemma LocationsFit(m: nat, x: nat)
    requires 1 < m <= MAX_BITS && x < m
    ensures Stored(LocationBytes(m), x) == x
  {
    var e := CeilLog2(m);
    CeilLog2Bounds(m);
    PowersOfTwo();
    if e > 31 {
      Pow2Increases(31, e - 1);
    }
    hide Pow2, CeilLog2;
    WidthCoversExponent(e);
    var bytes := LocationBytes(m);
    assert e <= 8 * bytes;
    Pow2Increases(e, 8 * bytes);
    SmallRem(x, Pow2(8 * bytes));
  }

  lemma PowersOfTwo()
    ensures Pow2(31) == MAX_BITS
  {
    assert Pow2(8) == 256;
    assert Pow2(16) == 0x1_0000;
    assert Pow2(24) == 0x100_0000;
  }

  lemma WidthCoversExponent(e: nat)
    requires 1 <= e <= 31
    ensures var kbytes := Pow2(CeilLog2((e + 7) / 8));
      e <= 8 * (if kbytes == 1 then 1 else if kbytes == 2 then 2 else 4)
  {
    var c := (e + 7) / 8;
    assert c == 1 || c == 2 || c == 3 || c == 4;
    SmallLogarithms();
    hide CeilLog2, Pow2;
  }

  lemma SmallLogarithms()
    ensures CeilLog2(1) == 0 && CeilLog2(2) == 1 && CeilLog2(3) == 2 && CeilLog2(4) == 2
    ensures Pow2(0) == 1 && Pow2(1) == 2 && Pow2(2) == 4
  {
    assert CeilLog2(2) == 1 && CeilLog2(3) == 1 + CeilLog2(2) && CeilLog2(4) == 1 + CeilLog2(2);
  }
}
