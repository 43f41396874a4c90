/**
 How large the shared ring is: frame sizes, rounding up to a power of two, and the two places
 that compute the size.
 */
module RingSizing {
  import opened Modular

  const WORD: nat := 0x1_0000_0000        // values of a 32-bit word
  const HALF: nat := 0x8000_0000
  const HEADER_BYTES: nat := 8            // sizeof(FrameHeader)
  const SHARED_HEADER_BYTES: nat := 256   // sizeof(SharedHeader): four 64-byte lines

  function AlignUp(value: nat, align: nat): nat
    requires align > 0
  {
    ((value + align - 1) / align) * align
  }

  function FrameBytes(payload: nat): nat {
    AlignUp(HEADER_BYTES + payload, 8)
  }

  lemma FrameBytesBounds(payload: nat)
    ensures FrameBytes(payload) % 8 == 0
    ensures HEADER_BYTES + payload <= FrameBytes(payload) < HEADER_BYTES + payload + 8
  {
  }

  lemma FrameBytesMonotone(p: nat, q: nat)
    requires p <= q
    ensures FrameBytes(p) <= FrameBytes(q)
  {
  }

  // ---------------------------------------------------------------------------------------
  // Bits of natural numbers

  function Pow2(k: nat): (p: nat)
    ensures p > 0
  {
    if k == 0 then 1 else 2 * Pow2(k - 1)
  }

  function Or(x: nat, y: nat): nat {
    if x == 0 then y else if y == 0 then x
    else (if x % 2 == 1 || y % 2 == 1 then 1 else 0) + 2 * Or(x / 2, y / 2)
  }

  function And(x: nat, y: nat): nat {
    if x == 0 || y == 0 then 0
    else (if x % 2 == 1 && y % 2 == 1 then 1 else 0) + 2 * And(x / 2, y / 2)
  }

  lemma HalfRemainder(x: nat, p: nat)
    requires p > 0
    ensures x % (2 * p) == 2 * ((x / 2) % p) + x % 2
  {
    var q := x / 2 / p;
    assert x / 2 == q * p + (x / 2) % p;
    assert q * (2 * p) == 2 * (q * p);
    UniqueRemainder(x, 2 * p, q, 2 * ((x / 2) % p) + x % 2);
  }

  lemma MaskHalves(x: nat, p: nat)
    requires x > 0 && p > 0
    ensures And(x, 2 * p - 1) == x % 2 + 2 * And(x / 2, p - 1)
  {
    assert (2 * p - 1) % 2 == 1 && (2 * p - 1) / 2 == p - 1;
  }

  lemma MaskStep(x: nat, p: nat)
    requires x > 0 && p > 0 && And(x / 2, p - 1) == (x / 2) % p
    ensures And(x, 2 * p - 1) == x % (2 * p)
  {
    MaskHalves(x, p);
    HalfRemainder(x, p);
  }

  // Masking with ring_bytes - 1 is the remainder by ring_bytes.
  lemma {:induction false} MaskIsRemainder(x: nat, k: nat)
    ensures And(x, Pow2(k) - 1) == x % Pow2(k)
    decreases k
  {
    if x == 0 {
      UniqueRemainder(0, Pow2(k), 0, 0);
    } else if k > 0 {
      MaskIsRemainder(x / 2, k - 1);
      MaskStep(x, Pow2(k - 1));
    }
  }

  lemma {:induction false} PowGrows(j: nat, k: nat)
    requires j <= k
    ensures Pow2(j) <= Pow2(k)
    ensures j < k ==> 2 * Pow2(j) <= Pow2(k)
    decreases k
  {
    if j < k { PowGrows(j, k - 1); }
  }

  lemma {:induction false} PowSplit(j: nat, k: nat)
    ensures Pow2(j + k) == Pow2(j) * Pow2(k)
  {
    if j > 0 {
      PowSplit(j - 1, k);
      assert Pow2(j) * Pow2(k) == 2 * (Pow2(j - 1) * Pow2(k));
    }
  }

  lemma {:induction false} OrBounds(x: nat, y: nat, k: nat)
    requires x < Pow2(k) && y < Pow2(k)
    ensures x <= Or(x, y) < Pow2(k) && y <= Or(x, y)
    decreases k
  {
    if x != 0 && y != 0 {
      OrBounds(x / 2, y / 2, k - 1);
    }
  }

  // Bits from position p up do not mix with those below.
  lemma {:induction false} OrHigh(h: nat, l: nat, y: nat, p: nat)
    requires l < Pow2(p) && y < Pow2(p)
    ensures Or(h * Pow2(p) + l, y) == h * Pow2(p) + Or(l, y)
    decreases p
  {
    if p > 0 && y > 0 {
      var x := h * Pow2(p) + l;
      assert h * Pow2(p) == 2 * (h * Pow2(p - 1));
      assert x / 2 == h * Pow2(p - 1) + l / 2 && x % 2 == l % 2;
      OrHigh(h, l / 2, y / 2, p - 1);
      if l == 0 {
        assert Or(l / 2, y / 2) == y / 2;
      }
    }
  }

  // ---------------------------------------------------------------------------------------
  // Rounding up to a power of two

  function ShiftRight(v: nat, s: nat): nat {
    if s == 0 then v else ShiftRight(v / 2, s - 1)
  }

  lemma {:induction false} ShiftIsQuotient(v: nat, s: nat)
    ensures ShiftRight(v, s) == v / Pow2(s)
    decreases s
  {
    if s > 0 {
      ShiftIsQuotient(v / 2, s - 1);
      HalfQuotient(v, Pow2(s - 1));
    }
  }

  lemma HalfQuotient(v: nat, p: nat)
    requires p > 0
    ensures v / (2 * p) == v / 2 / p
  {
    var q := v / 2 / p;
    assert v / 2 == q * p + (v / 2) % p;
    assert q * (2 * p) == 2 * (q * p);
    UniqueRemainder(v, 2 * p, q, 2 * ((v / 2) % p) + v % 2);
  }

  // v |= v >> s
  function Smear(v: nat, s: nat): nat {
    Or(v, ShiftRight(v, s))
  }

  function NextPow2(v: nat): nat {
    if v <= 1 then 1 else
      var x := Smear(Smear(Smear(Smear(Smear(v - 1, 1), 2), 4), 8), 16);
      (x + 1) % WORD
  }

  // The highest set bit of x is bit b, and the j highest bits from b down are set.
  ghost predicate TopOnes(x: nat, b: nat, j: nat) {
    1 <= j <= b + 1 && Pow2(b + 1) - Pow2(b + 1 - j) <= x < Pow2(b + 1)
  }

  lemma QuotientBelow(x: nat, d: nat, q: nat)
    requires d > 0 && x < d * q
    ensures x / d < q
  {
    assert x == (x / d) * d + x % d;
    Multiple(x / d - q + 1, d);
  }

  lemma QuotientAbove(x: nat, d: nat, q: int)
    requires d > 0 && q * d <= x
    ensures q <= x / d
  {
    assert x == (x / d) * d + x % d;
    if x / d < q {
      Multiple(q - x / d, d);
    }
  }

  // The part of x above position p = b + 1 - j is all ones, and x shifted by j fits below p.
  lemma ShiftedFits(x: nat, b: nat, j: nat)
    requires TopOnes(x, b, j)
    ensures var p := b + 1 - j; var y := x / Pow2(j);
      && x - (Pow2(b + 1) - Pow2(p)) < Pow2(p)
      && y < Pow2(p)
      && Pow2(b + 1) - Pow2(p) == (Pow2(j) - 1) * Pow2(p)
      && y >= Pow2(p) - (if j <= p then Pow2(p - j) else 1)
  {
    hide Pow2;
    var p := b + 1 - j;
    PowSplit(j, p);
    assert (Pow2(j) - 1) * Pow2(p) == Pow2(j) * Pow2(p) - Pow2(p);
    QuotientBelow(x, Pow2(j), Pow2(p));
    if j <= p {
      PowSplit(j, p - j);
      assert (Pow2(p) - Pow2(p - j)) * Pow2(j) == Pow2(p) * Pow2(j) - Pow2(p - j) * Pow2(j);
      QuotientAbove(x, Pow2(j), Pow2(p) - Pow2(p - j));
    } else {
      PowGrows(p, j);
      assert (Pow2(p) - 1) * Pow2(j) == Pow2(p) * Pow2(j) - Pow2(j);
      QuotientAbove(x, Pow2(j), Pow2(p) - 1);
    }
  }

  lemma SmearDoubles(x: nat, b: nat, j: nat)
    requires TopOnes(x, b, j)
    ensures TopOnes(Smear(x, j), b, if 2 * j <= b + 1 then 2 * j else b + 1)
  {
    hide Or;
    var p := b + 1 - j;
    var y, l := x / Pow2(j), x - (Pow2(b + 1) - Pow2(p));
    ShiftIsQuotient(x, j);
    ShiftedFits(x, b, j);
    assert Pow2(0) == 1;
    hide Pow2;
    OrHigh(Pow2(j) - 1, l, y, p);
    OrBounds(l, y, p);
  }

  lemma SmearKeeps(x: nat, b: nat, s: nat)
    requires TopOnes(x, b, b + 1)
    ensures TopOnes(Smear(x, s), b, b + 1)
  {
    hide Pow2, Or;
    ShiftShrinks(x, s);
    OrBounds(x, ShiftRight(x, s), b + 1);
  }

  lemma {:induction false} ShiftShrinks(v: nat, s: nat)
    ensures ShiftRight(v, s) <= v
    decreases s
  {
    if s > 0 { ShiftShrinks(v / 2, s - 1); }
  }

  // The position of the highest set bit.
  lemma {:induction false} HighBit(x: nat, limit: nat) returns (b: nat)
    requires 0 < x < Pow2(limit)
    ensures b < limit && TopOnes(x, b, 1)
    decreases limit
  {
    if x < Pow2(limit - 1) {
      b := HighBit(x, limit - 1);
    } else {
      b := limit - 1;
    }
  }

  function Sat(j: nat, b: nat): nat {
    if j <= b + 1 then j else b + 1
  }

  // One round of v |= v >> s on a number whose top min(s, b + 1) bits are set.
  lemma Round(x: nat, b: nat, s: nat)
    requires s > 0 && TopOnes(x, b, Sat(s, b))
    ensures TopOnes(Smear(x, s), b, Sat(2 * s, b))
  {
    hide Pow2, Smear;
    if s <= b + 1 {
      SmearDoubles(x, b, s);
    } else {
      SmearKeeps(x, b, s);
    }
  }

  lemma Smeared(x: nat, b: nat)
    requires TopOnes(x, b, 1) && b < 32
    ensures Smear(Smear(Smear(Smear(Smear(x, 1), 2), 4), 8), 16) == Pow2(b + 1) - 1
  {
    assert Pow2(0) == 1;
    hide Smear, Pow2;
    Round(x, b, 1);
    Round(Smear(x, 1), b, 2);
    Round(Smear(Smear(x, 1), 2), b, 4);
    Round(Smear(Smear(Smear(x, 1), 2), 4), b, 8);
    Round(Smear(Smear(Smear(Smear(x, 1), 2), 4), 8), b, 16);
  }

  lemma Constants()
    ensures Pow2(31) == HALF && Pow2(32) == WORD
  {
    assert Pow2(4) == 16 && Pow2(8) == 256;
    PowSplit(8, 8);
    PowSplit(16, 16);
    assert Pow2(32) == 2 * Pow2(31);
  }

  // NextPow2 yields the least power of two not below v, and wraps to 0 above 2^31.
  lemma NextPow2IsLeast(v: nat) returns (k: nat)
    requires 1 <= v < WORD
    ensures v <= HALF ==> k <= 31 && NextPow2(v) == Pow2(k) && v <= Pow2(k)
    ensures v <= HALF ==> forall j: nat | j < k :: Pow2(j) < v
    ensures v > HALF ==> NextPow2(v) == 0
  {
    Constants();
    if v == 1 {
      k := 0;
      assert Pow2(0) == 1;
    } else {
      var b := HighBit(v - 1, 32);
      Smeared(v - 1, b);
      k := b + 1;
      forall j: nat | j < k ensures Pow2(j) <= v - 1 { PowGrows(j, b); }
      RoundedUp(v, b);
    }
  }

  lemma RoundedUp(v: nat, b: nat)
    requires 1 < v < WORD && b < 32 && TopOnes(v - 1, b, 1)
    requires Smear(Smear(Smear(Smear(Smear(v - 1, 1), 2), 4), 8), 16) == Pow2(b + 1) - 1
    ensures NextPow2(v) == if b < 31 then Pow2(b + 1) else 0
    ensures b < 31 <==> v <= HALF
  {
    Constants();
    hide Smear;
    if b < 31 {
      PowGrows(b + 1, 31);
    } else {
      assert Pow2(b + 1) == WORD;
    }
  }

  // ---------------------------------------------------------------------------------------
  // The size of the channel's memory

  const SIZE_T: nat := 0x1_0000_0000_0000_0000

  // What the options ask for, in mathematical integers.
  function Target(capacity: nat, maxBytes: nat): nat {
    FrameBytes(maxBytes) * capacity
  }

  // 0 when the channel is refused.
  function TotalBytes(capacity: nat, maxBytes: nat): nat {
    var target := Target(capacity, maxBytes) % SIZE_T;
    if target > WORD - 1 then 0 else SHARED_HEADER_BYTES + NextPow2(target)
  }

  // MapAsServer's ring_bytes, in 32-bit arithmetic throughout.
  function ServerRing(capacity: nat, maxBytes: nat): nat {
    NextPow2(((FrameBytes(maxBytes) % WORD) * capacity) % WORD)
  }

  predicate Options(capacity: nat, maxBytes: nat) {
    0 < capacity < WORD && 0 < maxBytes < WORD
  }

  lemma ProductRemainder(x: nat, y: nat, m: nat)
    requires m > 0
    ensures ((x % m) * y) % m == (x * y) % m
  {
    var q := x / m;
    assert x == q * m + x % m;
    var z := (x % m) * y;
    assert z == (z / m) * m + z % m;
    assert x * y == (q * y) * m + z;
    assert x * y == (q * y + z / m) * m + z % m;
    UniqueRemainder(x * y, m, q * y + z / m, z % m);
  }

  lemma TwoRemainders(x: nat)
    ensures (x % SIZE_T) % WORD == x % WORD
  {
  }

  // The two places agree on the ring of every accepted channel.
  lemma SizesAgree(capacity: nat, maxBytes: nat)
    requires Options(capacity, maxBytes) && TotalBytes(capacity, maxBytes) != 0
    ensures TotalBytes(capacity, maxBytes) == SHARED_HEADER_BYTES + ServerRing(capacity, maxBytes)
  {
    hide NextPow2;
    var t := Target(capacity, maxBytes);
    ProductRemainder(FrameBytes(maxBytes), capacity, WORD);
    TwoRemainders(t);
    assert t % SIZE_T < WORD;
  }

  lemma ProductGrows(a: nat, b: nat, c: nat)
    requires a <= b
    ensures a * c <= b * c
  {
    assert (b - a) * c >= 0;
  }

  // A target beyond the 64-bit word that wraps into 32 bits is still above 2^31.
  lemma WrappedTarget(stride: nat, capacity: nat)
    requires stride <= WORD + 8 && stride % 8 == 0 && 0 < capacity < WORD
    requires stride * capacity >= SIZE_T
    ensures (stride * capacity) % SIZE_T > HALF
    ensures (stride * capacity) % SIZE_T < WORD <==> stride == WORD + 8 && capacity == WORD - 7
  {
    var c := WORD - capacity;
    if stride <= WORD {
      ProductGrows(stride, WORD, capacity);
    }
    assert stride == WORD + 8;
    assert stride * capacity == WORD * capacity + 8 * capacity;
    assert stride * capacity - SIZE_T == (8 - c) * WORD - 8 * c;
    UniqueRemainder(stride * capacity, SIZE_T, 1, stride * capacity - SIZE_T);
  }

  // A channel is refused exactly when it asks for 2^32 bytes or more, except for the one product
  // that wraps around the 64-bit word to something smaller.
  lemma RefusedExactly(capacity: nat, maxBytes: nat)
    requires Options(capacity, maxBytes)
    ensures TotalBytes(capacity, maxBytes) == 0 <==>
      Target(capacity, maxBytes) >= WORD && !(FrameBytes(maxBytes) == WORD + 8 && capacity == WORD - 7)
  {
    hide NextPow2;
    FrameBytesBounds(maxBytes);
    var t := Target(capacity, maxBytes);
    if t >= SIZE_T {
      WrappedTarget(FrameBytes(maxBytes), capacity);
    } else {
      UniqueRemainder(t, SIZE_T, 0, t);
    }
  }

  // An accepted channel's ring holds what its options ask for exactly when that is at most
  // 2^31 bytes; otherwise the ring has no bytes at all.
  lemma RingHoldsTarget(capacity: nat, maxBytes: nat)
    requires Options(capacity, maxBytes) && TotalBytes(capacity, maxBytes) != 0
    ensures Target(capacity, maxBytes) <= ServerRing(capacity, maxBytes) <==> Target(capacity, maxBytes) <= HALF
    ensures Target(capacity, maxBytes) > HALF ==> ServerRing(capacity, maxBytes) == 0
  {
    FrameBytesBounds(maxBytes);
    TargetFacts(capacity, maxBytes);
    SizesAgree(capacity, maxBytes);
    hide NextPow2, Target, FrameBytes, ServerRing;
    var t := Target(capacity, maxBytes);
    var k := NextPow2IsLeast(t % SIZE_T);
  }

  lemma TargetFacts(capacity: nat, maxBytes: nat)
    requires Options(capacity, maxBytes)
    ensures var t := Target(capacity, maxBytes);
      && t >= 16
      && (t < SIZE_T ==> t % SIZE_T == t)
      && (t >= SIZE_T ==> t % SIZE_T > HALF)
  {
    FrameBytesBounds(maxBytes);
    Multiple(capacity, FrameBytes(maxBytes));
    hide FrameBytes;
    if Target(capacity, maxBytes) >= SIZE_T {
      WrappedTarget(FrameBytes(maxBytes), capacity);
    }
  }

  // A channel whose ring works: what the sizing establishes and the protocol relies on.
  ghost predicate GoodRing(capacity: nat, maxBytes: nat, ring: nat) {
    && capacity > 0 && maxBytes > 0
    && Target(capacity, maxBytes) <= HALF
    && ring == NextPow2(Target(capacity, maxBytes))
  }

  lemma {:induction false} PowMultiple(k: nat)
    requires k >= 3
    ensures Pow2(k) % 8 == 0
  {
    if k > 3 { PowMultiple(k - 1); } else { assert Pow2(3) == 8; }
  }

  lemma GoodRingFacts(capacity: nat, maxBytes: nat, ring: nat)
    requires GoodRing(capacity, maxBytes, ring)
    ensures ring % 8 == 0 && ring >= 16
    ensures FrameBytes(maxBytes) <= Target(capacity, maxBytes) <= ring < 2 * Target(capacity, maxBytes)
    ensures exists k: nat :: ring == Pow2(k)
  {
    var t := Target(capacity, maxBytes);
    FrameBytesBounds(maxBytes);
    Multiple(capacity, FrameBytes(maxBytes));
    assert FrameBytes(maxBytes) <= t;
    hide FrameBytes, Target, NextPow2;
    var k := NextPow2IsLeast(t);
    SmallPowers(k, t);
    assert Pow2(k - 1) < t;
    PowMultiple(k);
  }

  lemma SmallPowers(k: nat, t: nat)
    requires 16 <= t <= Pow2(k)
    ensures k >= 4
  {
    assert Pow2(3) == 8;
    if k < 4 { PowGrows(k, 3); }
  }
}
