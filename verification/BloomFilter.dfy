// The filter itself: m bits in an array of 32-bit words, k positions an item.
module BloomFilter {
  import opened Texts
  import opened Fnv
  import opened BitWords
  import opened DoubleHashing
  import opened Filters
  import opened CoreDisk

  /** The positions of the set bits of an array of words. */
  function BitsOf(words: seq<bv32>): Bits {
    set p: nat | p < 32 * |words| && Bit(words[p / 32], p % 32)
  }

  /** The positions of an item. */
  function Positions(v: Text, m: nat, k: nat): Bits
    requires m > 0
  {
    set i: nat | i < k :: Location(v, m, i)
  }

  /** The positions of an item as the upper layers know them. */
  function BloomHash(m: nat, k: nat): Hash
    requires m > 0
  {
    v => Positions(v, m, k)
  }

  /** Number of set bits of an array of words. */
  function CountOf(words: seq<bv32>): nat {
    if words == [] then 0 else CountOf(words[..|words| - 1]) + Ones(words[|words| - 1], 32)
  }

  // ---- Words and bits ----

  lemma OneMoreBit(words: seq<bv32>, p: nat, w: bv32)
    requires p < 32 * |words| && w == Or(words[p / 32], Mask(p % 32))
    ensures BitsOf(words[p / 32 := w]) == BitsOf(words) + {p}
  {
    hide Bit, Or, Mask;
    var words' := words[p / 32 := w];
    forall q: nat | q < 32 * |words|
      ensures Bit(words'[q / 32], q % 32) <==> Bit(words[q / 32], q % 32) || q == p
    {
      if q / 32 == p / 32 {
        OrBit(words[p / 32], Mask(p % 32), q % 32);
        MaskBit(q % 32, p % 32);
        SameWord(p, q);
      }
    }
  }

  lemma SameWord(p: nat, q: nat)
    requires q / 32 == p / 32
    ensures q % 32 == p % 32 <==> q == p
  {
  }

  lemma PositionsGrow(v: Text, m: nat, i: nat)
    requires m > 0
    ensures Positions(v, m, i + 1) == Positions(v, m, i) + {Location(v, m, i)}
  {
    hide Location;
  }

  lemma InRange(v: Text, m: nat, i: nat)
    requires m > 0
    ensures Location(v, m, i) < m
  {
  }

  lemma HashHalves(v0: nat, v1: nat, v2: nat, v3: nat, h: nat)
    requires v0 < LIMB && v1 < LIMB && v2 < LIMB && v3 < LIMB && Limbs(v0, v1, v2, v3) == h
    ensures h / WORD % WORD == v3 * LIMB + v2 < WORD
    ensures h % WORD == v1 * LIMB + v0 < WORD
  {
  }

  /** The set bits of `words`, and of the next word those below j. */
  function Partial(words: seq<bv32>, w: bv32, j: nat): Bits
    requires j <= 32
  {
    BitsOf(words) + set i: nat | i < j && Bit(w, i) :: 32 * |words| + i
  }

  lemma PartialStart(words: seq<bv32>, w: bv32)
    ensures Partial(words, w, 0) == BitsOf(words)
  {
  }

  lemma PartialStep(words: seq<bv32>, w: bv32, j: nat)
    requires 0 < j <= 32
    ensures var p := 32 * |words| + j - 1;
      && p !in Partial(words, w, j - 1)
      && Partial(words, w, j) == if Bit(w, j - 1) then Partial(words, w, j - 1) + {p} else Partial(words, w, j - 1)
  {
    hide Bit;
  }

  lemma {:induction false} PartialCount(words: seq<bv32>, w: bv32, j: nat)
    requires j <= 32
    ensures |Partial(words, w, j)| == |BitsOf(words)| + Ones(w, j)
  {
    hide Bit, Partial, BitsOf;
    if j == 0 {
      PartialStart(words, w);
    } else {
      PartialStep(words, w, j);
      PartialCount(words, w, j - 1);
    }
  }

  lemma PartialIsWhole(words: seq<bv32>, w: bv32)
    ensures Partial(words, w, 32) == BitsOf(words + [w])
  {
    hide Bit;
    var n := |words|;
    forall p: nat
      ensures p in Partial(words, w, 32) <==> p in BitsOf(words + [w])
    {
      if p < 32 * n {
        assert (words + [w])[p / 32] == words[p / 32];
      } else if p < 32 * n + 32 {
        assert p / 32 == n && p == 32 * n + p % 32;
      }
    }
  }

  /** The running count is the cardinality of the set of positions. */
  lemma {:induction false} CountIsCardinality(words: seq<bv32>)
    ensures CountOf(words) == |BitsOf(words)|
  {
    hide Partial;
    if words == [] {
      assert BitsOf(words) == {};
    } else {
      var front, w := words[..|words| - 1], words[|words| - 1];
      CountIsCardinality(front);
      PartialCount(front, w, 32);
      PartialIsWhole(front, w);
      assert words == front + [w];
    }
  }

  class BloomFilter {
    const m: nat
    const k: nat
    const buckets: array<bv32>
    const locations: array<nat>

    ghost predicate Valid()
      reads this
    {
      1 < m <= MAX_BITS && m == 32 * buckets.Length && locations.Length == k && k > 0 &&
      buckets as object != locations as object
    }

    ghost function Bits(): Bits
      reads this, buckets
    {
      BitsOf(buckets[..])
    }

    /** An empty filter of at least `bits` bits. */
    constructor (bits: nat, k: nat)
      requires 0 < bits <= MAX_BITS && k > 0
      ensures Valid() && fresh(buckets) && fresh(locations)
      ensures this.k == k && bits <= m < bits + 32
      ensures Bits() == {}
    {
      var n := (bits + 31) / 32;
      this.m := n * 32;
      this.k := k;
      this.buckets := new bv32[n](_ => 0);
      this.locations := new nat[k](_ => 0);
      new;
      assert forall p: nat :: p < 32 * n ==> !Bit(buckets[p / 32], p % 32);
    }

    /** A filter over words read back from disk. */
    constructor FromBuckets(words: seq<bv32>, k: nat)
      requires 0 < |words| && 32 * |words| <= MAX_BITS && k > 0
      ensures Valid() && fresh(buckets) && fresh(locations)
      ensures this.k == k && m == 32 * |words| && buckets[..] == words
    {
      this.m := |words| * 32;
      this.k := k;
      this.buckets := new bv32[|words|](i requires 0 <= i < |words| => words[i]);
      this.locations := new nat[k](_ => 0);
    }

    /** Both halves of the hash, brought into range. */
    method Hashes(v: Text) returns (a: nat, b: nat)
      requires Valid()
      ensures a == Start(v, m) && b == Stride(v, m)
      ensures SignedResidue(a, Fnv1a(v) / WORD % WORD, m) && SignedResidue(b, Fnv1a(v) % WORD, m)
    {
      hide Fnv1a, Int32, Rem;
      var v0, v1, v2, v3 := LimbHash(v);
      HashHalves(v0, v1, v2, v3, Fnv1a(v));
      hide Limbs;
      var high := Int32(v3 * LIMB + v2);
      var low := Int32(v1 * LIMB + v0);
      Residue(high, m);
      Residue(low, m);
      a := Rem(Rem(high, m) + m, m);
      b := Rem(Rem(low, m) + m, m);
      StartAndStride(v, m, a, b);
    }

    /** Fills in the positions of an item, each kept in an element of LocationBytes(m) bytes. */
    method Locations(v: Text)
      requires Valid()
      modifies locations
      ensures forall i :: 0 <= i < k ==> locations[i] == Location(v, m, i) < m
      ensures DoubleHashed(v, m, locations[..])
    {
      hide Start, Stride, Location, Stored, LocationBytes, SignedResidue, Fnv1a, DoubleHashed;
      var a, b := Hashes(v);
      FirstLocation(v, m);
      InRange(v, m, 0);
      LocationsFit(m, a);
      locations[0] := Stored(LocationBytes(m), a);
      for i := 1 to k
        invariant a == Location(v, m, i - 1) && b == (Stride(v, m) + Triangle(i - 1)) % m
        invariant forall j :: 0 <= j < i ==> locations[j] == Location(v, m, j) < m
      {
        NextLocation(v, m, i, a, b);
        InRange(v, m, i);
        a := (a + b) % m;
        b := (b + i) % m;
        LocationsFit(m, a);
        locations[i] := Stored(LocationBytes(m), a);
      }
      LocationsAreHashed(v, m, locations[..]);
    }

    /** Sets the bits of an item and no other. */
    method Add(v: Text)
      requires Valid()
      modifies locations, buckets
      ensures Bits() == old(Bits()) + Positions(v, m, k)
    {
      hide Location, Mask, Bit;
      Locations(v);
      ghost var before := buckets[..];
      for i := 0 to k
        invariant forall j :: 0 <= j < k ==> locations[j] == Location(v, m, j) < m
        invariant Bits() == BitsOf(before) + Positions(v, m, i)
      {
        ghost var was := buckets[..];
        var position := locations[i];
        buckets[position / 32] := Or(buckets[position / 32], Mask(position % 32));
        OneMoreBit(was, position, buckets[position / 32]);
        assert buckets[..] == was[position / 32 := buckets[position / 32]];
        PositionsGrow(v, m, i);
      }
    }

    /** Are all bits of an item set? */
    method Test(v: Text) returns (r: bool)
      requires Valid()
      modifies locations
      ensures r <==> Positions(v, m, k) <= Bits()
    {
      hide Location, Mask, And;
      Locations(v);
      for i := 0 to k
        invariant forall j :: 0 <= j < i ==> Location(v, m, j) in Bits()
      {
        var position := locations[i];
        if And(buckets[position / 32], Mask(position % 32)) == 0 {
          assert !Bit(buckets[position / 32], position % 32);
          assert position !in Bits();
          assert position in Positions(v, m, k);
          return false;
        }
        assert Bit(buckets[position / 32], position % 32);
        assert position in Bits();
      }
      return true;
    }

    /** Counts the set bits. */
    method CountBits() returns (bits: nat)
      ensures bits == CountOf(buckets[..]) == |Bits()|
    {
      bits := 0;
      for i := 0 to buckets.Length
        invariant bits == CountOf(buckets[..i])
      {
        var count := Popcnt(buckets[i]);
        assert buckets[..i + 1] == buckets[..i] + [buckets[i]];
        bits := bits + count as nat;
      }
      assert buckets[..buckets.Length] == buckets[..];
      CountIsCardinality(buckets[..]);
    }

    /** Throws (no result) unless both filters have the same geometry. */
    static method Union(a: BloomFilter, b: BloomFilter) returns (c: BloomFilter?)
      requires a.Valid() && b.Valid()
      ensures c == null <==> a.m != b.m || a.k != b.k
      ensures c != null ==> c.Valid() && c.m == a.m && c.k == a.k && c.Bits() == a.Bits() + b.Bits()
    {
      if a.m != b.m || a.k != b.k {
        return null;
      }
      hide Bit, Or;
      var l := a.m / 32;
      var words := new bv32[l](_ => 0);
      for i := 0 to l
        invariant forall j :: 0 <= j < i ==> words[j] == Or(a.buckets[j], b.buckets[j])
      {
        words[i] := Or(a.buckets[i], b.buckets[i]);
      }
      UnionBits(a.buckets[..], b.buckets[..], words[..]);
      c := new BloomFilter.FromBuckets(words[..], a.k);
    }

    /** Throws (no result) unless both filters have the same geometry. */
    static method Intersection(a: BloomFilter, b: BloomFilter) returns (c: BloomFilter?)
      requires a.Valid() && b.Valid()
      ensures c == null <==> a.m != b.m || a.k != b.k
      ensures c != null ==> c.Valid() && c.m == a.m && c.k == a.k && c.Bits() == a.Bits() * b.Bits()
    {
      if a.m != b.m || a.k != b.k {
        return null;
      }
      hide Bit, And;
      var l := a.m / 32;
      var words := new bv32[l](_ => 0);
      for i := 0 to l
        invariant forall j :: 0 <= j < i ==> words[j] == And(a.buckets[j], b.buckets[j])
      {
        words[i] := And(a.buckets[i], b.buckets[i]);
      }
      IntersectionBits(a.buckets[..], b.buckets[..], words[..]);
      c := new BloomFilter.FromBuckets(words[..], a.k);
    }
  }

  lemma UnionBits(a: seq<bv32>, b: seq<bv32>, c: seq<bv32>)
    requires |a| == |b| == |c| && forall i :: 0 <= i < |c| ==> c[i] == Or(a[i], b[i])
    ensures BitsOf(c) == BitsOf(a) + BitsOf(b)
  {
    hide Bit, Or;
    forall p: nat | p < 32 * |c|
      ensures Bit(c[p / 32], p % 32) <==> Bit(a[p / 32], p % 32) || Bit(b[p / 32], p % 32)
    {
      OrBit(a[p / 32], b[p / 32], p % 32);
    }
  }

  lemma IntersectionBits(a: seq<bv32>, b: seq<bv32>, c: seq<bv32>)
    requires |a| == |b| == |c| && forall i :: 0 <= i < |c| ==> c[i] == And(a[i], b[i])
    ensures BitsOf(c) == BitsOf(a) * BitsOf(b)
  {
    hide Bit, And;
    forall p: nat | p < 32 * |c|
      ensures Bit(c[p / 32], p % 32) <==> Bit(a[p / 32], p % 32) && Bit(b[p / 32], p % 32)
    {
      AndBit(a[p / 32], b[p / 32], p % 32);
    }
  }

  /** An intersection finds an item exactly when both operands do. */
  lemma IntersectionTests(a: seq<bv32>, b: seq<bv32>, c: seq<bv32>, item: Bits)
    requires |a| == |b| == |c| && forall i :: 0 <= i < |c| ==> c[i] == And(a[i], b[i])
    ensures item <= BitsOf(c) <==> item <= BitsOf(a) && item <= BitsOf(b)
  {
    IntersectionBits(a, b, c);
  }

  /** The bit counts of a union and an intersection add up to those of the operands. */
  lemma CountsAddUp(a: seq<bv32>, b: seq<bv32>, union: seq<bv32>, intersection: seq<bv32>)
    requires |a| == |b| == |union| == |intersection|
    requires forall i :: 0 <= i < |a| ==> union[i] == Or(a[i], b[i]) && intersection[i] == And(a[i], b[i])
    ensures CountOf(union) + CountOf(intersection) == CountOf(a) + CountOf(b)
  {
    hide BitsOf, CountOf, Or, And;
    CountIsCardinality(a);
    CountIsCardinality(b);
    CountIsCardinality(union);
    CountIsCardinality(intersection);
    UnionBits(a, b, union);
    IntersectionBits(a, b, intersection);
  }

  /** An array of words is determined by its set bits. */
  lemma BitsDetermineBuckets(a: seq<bv32>, b: seq<bv32>)
    requires |a| == |b| && BitsOf(a) == BitsOf(b)
    ensures a == b
  {
    hide Bit;
    forall w: nat | w < |a|
      ensures a[w] == b[w]
    {
      forall i: nat | i < 32
        ensures Bit(a[w], i) <==> Bit(b[w], i)
      {
        var p := 32 * w + i;
        assert p / 32 == w && p % 32 == i;
        assert p in BitsOf(a) <==> p in BitsOf(b);
      }
      SameBits(a[w], b[w]);
    }
  }

  lemma {:induction false} ItemIsIn(hash: Hash, items: seq<Text>, item: Text)
    requires item in items
    ensures hash(item) <= ItemBits(hash, items)
  {
    if items[|items| - 1] != item {
      ItemIsIn(hash, items[..|items| - 1], item);
    }
  }

  lemma {:induction false} FewerItems(hash: Hash, items: seq<Text>, others: seq<Text>)
    requires forall item <- items :: item in others
    ensures ItemBits(hash, items) <= ItemBits(hash, others)
  {
    if items != [] {
      FewerItems(hash, items[..|items| - 1], others);
      ItemIsIn(hash, others, items[|items| - 1]);
    }
  }

  /** Adding the same items in any order and with any repeats sets the same bits: the same buckets. */
  lemma OrderAndRepeatsDoNotMatter(hash: Hash, items: seq<Text>, others: seq<Text>, a: seq<bv32>, b: seq<bv32>)
    requires (forall item <- items :: item in others) && (forall item <- others :: item in items)
    requires |a| == |b| && BitsOf(a) == ItemBits(hash, items) && BitsOf(b) == ItemBits(hash, others)
    ensures a == b
  {
    FewerItems(hash, items, others);
    FewerItems(hash, others, items);
    BitsDetermineBuckets(a, b);
  }

  lemma {:induction false} BitsOfBoth(hash: Hash, items: seq<Text>, more: seq<Text>)
    ensures ItemBits(hash, items + more) == ItemBits(hash, items) + ItemBits(hash, more)
  {
    if more == [] {
      assert items + more == items;
    } else {
      BitsOfBoth(hash, items, more[..|more| - 1]);
      assert (items + more)[..|items + more| - 1] == items + more[..|more| - 1];
    }
  }

  /** The union of the filters of S and of T is the filter of S and T together. */
  lemma UnionIsFilterOfBoth(hash: Hash, s: seq<Text>, t: seq<Text>, a: seq<bv32>, b: seq<bv32>, union: seq<bv32>,
      both: seq<bv32>)
    requires |a| == |b| == |union| == |both|
    requires BitsOf(a) == ItemBits(hash, s) && BitsOf(b) == ItemBits(hash, t) && BitsOf(both) == ItemBits(hash, s + t)
    requires forall i :: 0 <= i < |a| ==> union[i] == Or(a[i], b[i])
    ensures union == both
  {
    UnionBits(a, b, union);
    BitsOfBoth(hash, s, t);
    BitsDetermineBuckets(union, both);
  }

  /** A filter filled item by item: its bits are those of the items. */
  method AddAll(filter: BloomFilter, items: seq<Text>)
    requires filter.Valid()
    modifies filter.locations, filter.buckets
    ensures filter.Bits() == old(filter.Bits()) + ItemBits(BloomHash(filter.m, filter.k), items)
  {
    ghost var hash := BloomHash(filter.m, filter.k);
    for i := 0 to |items|
      invariant filter.Bits() == old(filter.Bits()) + ItemBits(hash, items[..i])
    {
      filter.Add(items[i]);
      assert items[..i + 1] == items[..i] + [items[i]];
      ItemBitsAppend(hash, items[..i], items[i]);
    }
    assert items[..|items|] == items;
  }
}
