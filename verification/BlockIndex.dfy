/**
 The block index of an implicit producer: a circular array of entries, replaced by one of
 twice the size when it is full, from which consumers find the block holding an index.

 Block number k holds the element indices k * BLOCK_SIZE, ..., (k + 1) * BLOCK_SIZE - 1.
 This module is about the index alone; the threads using it are in ImplicitQueue.
 */
module BlockIndex {
  import opened Modular
  import opened Sums

  type Entry = nat
  type Block = nat

  const BLOCK_SIZE: nat := 32
  const INITIAL_INDEX_SIZE: nat := 32
  // The block size exceeds 1, so no block base is odd.
  const INVALID_BLOCK_BASE: int := 1

  // A published BlockIndexHeader: `capacity` is the length of the array of entry pointers.
  datatype Header = Header(index: seq<Entry>, tail: nat)

  // An entry's value: never stored, null, or a block.
  datatype Value = Garbage | Null | Blk(block: Block)

  // All headers ever published (the last is current), the entries they share, and the next
  // unused entry address.
  datatype Index = Index(headers: seq<Header>, keys: map<Entry, int>, values: map<Entry, Value>, unused: nat) {
    function Key(e: Entry): int { if e in keys then keys[e] else INVALID_BLOCK_BASE }
    function Value(e: Entry): Value { if e in values then values[e] else Garbage }
    predicate Shaped() { headers != [] && |headers[|headers| - 1].index| > 0 }
    function Last(): nat requires Shaped() { |headers| - 1 }
    function Current(): Header requires Shaped() { headers[|headers| - 1] }
    function NextSlot(): nat requires Shaped() { (Current().tail + 1) % |Current().index| }
    function NextEntry(): Entry requires Shaped() { Current().index[NextSlot()] }
  }

  // ---------------------------------------------------------------------------------------
  // Operations

  // new_block_index on an empty producer.
  function First(): Index {
    Index([Header(seq(INITIAL_INDEX_SIZE, i => i), (0 - 1) % INITIAL_INDEX_SIZE)], map[], map[], INITIAL_INDEX_SIZE)
  }

  // The test of insert_block_index_entry.
  predicate HasRoom(x: Index)
    requires x.Shaped()
  {
    x.Key(x.NextEntry()) == INVALID_BLOCK_BASE || x.Value(x.NextEntry()) == Null
  }

  function StoreKey(x: Index, e: Entry, base: int): Index {
    x.(keys := x.keys[e := base])
  }

  function StoreValue(x: Index, e: Entry, v: Value): Index {
    x.(values := x.values[e := v])
  }

  function StoreTail(x: Index, tail: nat): Index
    requires x.Shaped()
  {
    x.(headers := x.headers[x.Last() := x.Current().(tail := tail)])
  }

  // new_block_index: the old entries, oldest first, followed by as many new ones.
  function Grown(x: Index): Header
    requires x.Shaped()
  {
    var h := x.Current();
    var c := |h.index|;
    Header(seq(c, j requires 0 <= j < c => h.index[(h.tail + 1 + j) % c]) + seq(c, j => x.unused + j), c - 1)
  }

  function Grow(x: Index): Index
    requires x.Shaped()
  {
    x.(headers := x.headers + [Grown(x)], unused := x.unused + |x.Current().index|)
  }

  // get_block_index_index_for_index, from the tail slot and its key to the slot of `base`.
  // The difference of two block bases is a multiple of the block size, of either sign.
  function FindSlot(tail: nat, tailBase: int, base: int, capacity: nat): nat
    requires capacity > 0
  {
    (tail + (base - tailBase) / BLOCK_SIZE) % capacity
  }

  // ---------------------------------------------------------------------------------------
  // The invariant

  // The bookkeeping of the proof. For each block inserted so far: its entry, and what the
  // entry holds (null once the block is released). For each header: the offset that places
  // block k at slot (k + offset) mod capacity, and the number of blocks it has seen. Blocks
  // below `lo` are released.
  datatype Aux = Aux(lo: nat, entry: seq<Entry>, hold: seq<Value>, offset: seq<int>, top: seq<int>)

  function Slot(offset: int, k: int, capacity: nat): (r: nat)
    requires capacity > 0
    ensures r < capacity
  {
    (k + offset) % capacity
  }

  // Header h finds every block in lo .. top - 1.
  ghost predicate Serves(h: Header, offset: int, lo: nat, top: int, entry: seq<Entry>) {
    && |h.index| > 0
    && top <= |entry|
    && top - lo <= |h.index|
    && forall k | lo <= k < top :: h.index[Slot(offset, k, |h.index|)] == entry[k]
  }

  ghost predicate HeadersInv(x: Index, a: Aux) {
    && |x.headers| == |a.offset| == |a.top|
    && (forall j | 0 <= j < |x.headers| :: Serves(x.headers[j], a.offset[j], a.lo, a.top[j], a.entry))
    && (forall j | 0 <= j < |x.headers| - 1 ::
          x.headers[j].tail == Slot(a.offset[j], a.top[j] - 1, |x.headers[j].index|))
  }

  ghost predicate EntriesInv(x: Index, a: Aux) {
    && |a.entry| == |a.hold|
    && a.lo <= |a.entry|
    && (forall k | a.lo <= k < |a.entry| :: x.Key(a.entry[k]) == k * BLOCK_SIZE)
    && (forall k | a.lo <= k < |a.entry| && a.hold[k].Blk? :: x.Value(a.entry[k]) == a.hold[k])
    && (forall k | 0 <= k < a.lo :: !a.hold[k].Blk?)
  }

  ghost predicate CurrentInv(x: Index, a: Aux, ahead: bool)
    requires x.Shaped() && |x.headers| == |a.offset| == |a.top|
  {
    var h := x.Current();
    && a.top[x.Last()] == |a.entry|
    && h.tail == Slot(a.offset[x.Last()], if ahead then |a.entry| else |a.entry| - 1, |h.index|)
    && Distinct(h.index)
    && (forall i | 0 <= i < |h.index| :: h.index[i] < x.unused)
  }

  // `ahead`: the tail has been moved for a block that is not inserted yet.
  ghost predicate Inv(x: Index, a: Aux, ahead: bool) {
    && x.Shaped()
    && HeadersInv(x, a)
    && EntriesInv(x, a)
    && CurrentInv(x, a, ahead)
    && (forall e | e in x.keys :: e < x.unused)
  }

  // There is a free slot for one more block.
  ghost predicate Roomy(x: Index, a: Aux) {
    x.Shaped() && |a.entry| - a.lo < |x.Current().index|
  }

  // The slot for the next block already carries its key.
  ghost predicate Keyed(x: Index, a: Aux) {
    && Roomy(x, a)
    && |a.offset| == |x.headers|
    && x.Key(NextOf(x, a)) == |a.entry| * BLOCK_SIZE
  }

  // The entry where the next block goes.
  ghost function NextOf(x: Index, a: Aux): Entry
    requires x.Shaped() && |a.offset| == |x.headers|
  {
    x.Current().index[Slot(a.offset[x.Last()], |a.entry|, |x.Current().index|)]
  }

  lemma FirstInv()
    ensures Inv(First(), Aux(0, [], [], [0], [0]), false)
    ensures Roomy(First(), Aux(0, [], [], [0], [0]))
  {
  }

  // The slot after the tail is the next block's slot.
  lemma NextSlotIs(x: Index, a: Aux)
    requires Inv(x, a, false)
    ensures x.NextSlot() == Slot(a.offset[x.Last()], |a.entry|, |x.Current().index|)
    ensures x.NextEntry() == NextOf(x, a)
  {
    ShiftRemainder(|a.entry| - 1 + a.offset[x.Last()], 1, |x.Current().index|);
  }

  // Rewinding takes the tail back to the last inserted block.
  lemma PreviousSlotIs(x: Index, a: Aux)
    requires Inv(x, a, true)
    ensures (x.Current().tail - 1) % |x.Current().index|
            == Slot(a.offset[x.Last()], |a.entry| - 1, |x.Current().index|)
  {
    ShiftRemainder(|a.entry| + a.offset[x.Last()], -1, |x.Current().index|);
  }

  // With room left, the next entry is none of those still in use.
  lemma NextIsNew(x: Index, a: Aux, ahead: bool, k: nat)
    requires Inv(x, a, ahead) && Roomy(x, a) && a.lo <= k < |a.entry|
    ensures a.entry[k] != NextOf(x, a)
  {
    var h, off, c := x.Current(), a.offset[x.Last()], |x.Current().index|;
    assert Serves(h, off, a.lo, a.top[x.Last()], a.entry);
    var i, j := Slot(off, k, c), Slot(off, |a.entry|, c);
    if i == j {
      DistinctRemainders(k + off, |a.entry| + off, c);
    }
  }

  // When the test of insert_block_index_entry succeeds there is room, possibly because the
  // oldest block that mattered has been released.
  lemma RoomFound(x: Index, a: Aux) returns (a': Aux)
    requires Inv(x, a, false) && HasRoom(x)
    ensures Inv(x, a', false) && Roomy(x, a')
    ensures a' == a.(lo := a'.lo) && a.lo <= a'.lo <= a.lo + 1
    ensures Roomy(x, a) ==> a' == a
  {
    if Roomy(x, a) {
      a' := a;
    } else {
      var h, off, c := x.Current(), a.offset[x.Last()], |x.Current().index|;
      assert Serves(h, off, a.lo, a.top[x.Last()], a.entry);
      NextSlotIs(x, a);
      assert a.lo + off + c == |a.entry| + off;
      FullCircle(a.lo + off, c);
      assert Slot(off, a.lo, c) == Slot(off, |a.entry|, c);
      a' := a.(lo := a.lo + 1);
    }
  }

  lemma FullCircle(a: int, c: nat)
    requires c > 0
    ensures (a + c) % c == a % c
  {
    assert a == (a / c) * c + a % c;
    UniqueRemainder(a + c, c, a / c + 1, a % c);
  }

  // ---------------------------------------------------------------------------------------
  // What each store keeps

  lemma KeyStored(x: Index, a: Aux)
    requires Inv(x, a, false) && Roomy(x, a)
    ensures var x' := StoreKey(x, NextOf(x, a), |a.entry| * BLOCK_SIZE);
      Inv(x', a, false) && Keyed(x', a) && NextOf(x', a) == NextOf(x, a)
  {
    forall k | a.lo <= k < |a.entry| ensures a.entry[k] != NextOf(x, a) {
      NextIsNew(x, a, false, k);
    }
  }

  lemma TailMoved(x: Index, a: Aux)
    requires Inv(x, a, false) && Keyed(x, a)
    ensures var x' := StoreTail(x, Slot(a.offset[x.Last()], |a.entry|, |x.Current().index|));
      Inv(x', a, true) && Keyed(x', a) && NextOf(x', a) == NextOf(x, a)
  {
    HeadersKept(x, a, Slot(a.offset[x.Last()], |a.entry|, |x.Current().index|));
  }

  lemma TailRewound(x: Index, a: Aux)
    requires Inv(x, a, true) && Keyed(x, a)
    ensures var x' := StoreTail(x, (x.Current().tail - 1) % |x.Current().index|);
      Inv(x', a, false) && Keyed(x', a) && NextOf(x', a) == NextOf(x, a)
  {
    PreviousSlotIs(x, a);
    HeadersKept(x, a, (x.Current().tail - 1) % |x.Current().index|);
  }

  lemma HeadersKept(x: Index, a: Aux, tail: nat)
    requires x.Shaped() && HeadersInv(x, a)
    ensures HeadersInv(StoreTail(x, tail), a)
  {
    var x' := StoreTail(x, tail);
    forall j | 0 <= j < |x'.headers|
      ensures Serves(x'.headers[j], a.offset[j], a.lo, a.top[j], a.entry)
    {
      assert Serves(x.headers[j], a.offset[j], a.lo, a.top[j], a.entry);
    }
  }

  // Storing null in the next entry, as a failed insertion does.
  lemma NullStored(x: Index, a: Aux)
    requires Inv(x, a, false) && Keyed(x, a)
    ensures var x' := StoreValue(x, NextOf(x, a), Null); Inv(x', a, false) && Keyed(x', a)
  {
    forall k | a.lo <= k < |a.entry| ensures a.entry[k] != NextOf(x, a) {
      NextIsNew(x, a, false, k);
    }
  }

  // The block becomes part of the index.
  ghost function Inserted(x: Index, a: Aux, b: Block): Aux
    requires x.Shaped() && |a.offset| == |a.top| == |x.headers|
  {
    a.(entry := a.entry + [NextOf(x, a)], hold := a.hold + [Blk(b)], top := a.top[x.Last() := |a.entry| + 1])
  }

  lemma ValueStored(x: Index, a: Aux, b: Block)
    requires Inv(x, a, true) && Keyed(x, a)
    ensures Inv(StoreValue(x, NextOf(x, a), Blk(b)), Inserted(x, a, b), false)
  {
    var x', a' := StoreValue(x, NextOf(x, a), Blk(b)), Inserted(x, a, b);
    forall j | 0 <= j < |x'.headers|
      ensures Serves(x'.headers[j], a'.offset[j], a'.lo, a'.top[j], a'.entry)
    {
      assert Serves(x.headers[j], a.offset[j], a.lo, a.top[j], a.entry);
    }
    forall k | a.lo <= k < |a.entry| ensures a.entry[k] != NextOf(x, a) {
      NextIsNew(x, a, true, k);
    }
  }

  // A consumer that emptied block k stores null in its entry.
  lemma BlockReleased(x: Index, a: Aux, ahead: bool, k: nat)
    requires Inv(x, a, ahead) && a.lo <= k < |a.entry| && a.hold[k].Blk?
    ensures Inv(StoreValue(x, a.entry[k], Null), a.(hold := a.hold[k := Null]), ahead)
    ensures Keyed(x, a) ==> Keyed(StoreValue(x, a.entry[k], Null), a.(hold := a.hold[k := Null]))
  {
    forall i | a.lo <= i < |a.entry| && i != k ensures a.entry[i] != a.entry[k] {
      EntriesDiffer(x, a, ahead, i, k);
    }
  }

  lemma EntriesDiffer(x: Index, a: Aux, ahead: bool, i: nat, k: nat)
    requires Inv(x, a, ahead) && a.lo <= i < |a.entry| && a.lo <= k < |a.entry| && i != k
    ensures a.entry[i] != a.entry[k]
  {
    assert x.Key(a.entry[i]) == i * BLOCK_SIZE && x.Key(a.entry[k]) == k * BLOCK_SIZE;
  }

  // ---------------------------------------------------------------------------------------
  // Doubling

  ghost function Doubled(x: Index, a: Aux): Aux
    requires x.Shaped()
  {
    a.(offset := a.offset + [|x.Current().index| - |a.entry|], top := a.top + [|a.entry|])
  }

  // The new header keeps each block's entry at the slot its own offset gives.
  lemma GrownServes(x: Index, a: Aux)
    requires Inv(x, a, false)
    ensures Serves(Grown(x), |x.Current().index| - |a.entry|, a.lo, |a.entry|, a.entry)
  {
    hide Slot, Grown, Distinct;
    var c, n := |x.Current().index|, |a.entry|;
    assert Serves(x.Current(), a.offset[x.Last()], a.lo, a.top[x.Last()], a.entry);
    GrownSize(x);
    forall k | a.lo <= k < n ensures Grown(x).index[Slot(c - n, k, 2 * c)] == a.entry[k] { GrownAt(x, a, k); }
  }

  lemma GrownSize(x: Index)
    requires x.Shaped()
    ensures |Grown(x).index| == 2 * |x.Current().index|
  {
  }

  lemma GrownAt(x: Index, a: Aux, k: nat)
    requires Inv(x, a, false) && a.lo <= k < |a.entry| && |a.entry| - a.lo <= |x.Current().index|
    ensures Grown(x).index[Slot(|x.Current().index| - |a.entry|, k, 2 * |x.Current().index|)] == a.entry[k]
  {
    hide Distinct, EntriesInv;
    var h, off, c, n := x.Current(), a.offset[x.Last()], |x.Current().index|, |a.entry|;
    assert Serves(h, off, a.lo, a.top[x.Last()], a.entry);
    var j := k + c - n;
    UniqueRemainder(j, 2 * c, 0, j);
    CircleFrom(h.tail, n, off, j, k, c);
    assert Grown(x).index[j] == h.index[(h.tail + 1 + j) % c];
  }

  // Counting on from the tail reaches the slot of k after one circle.
  lemma CircleFrom(tail: nat, n: int, off: int, j: int, k: int, c: nat)
    requires c > 0 && tail == Slot(off, n - 1, c) && j == k + c - n
    ensures (tail + 1 + j) % c == Slot(off, k, c)
  {
    ShiftRemainder(n - 1 + off, 1 + j, c);
    FullCircle(k + off, c);
  }

  lemma GrownHeaders(x: Index, a: Aux)
    requires Inv(x, a, false)
    ensures HeadersInv(Grow(x), Doubled(x, a))
  {
    var x', a' := Grow(x), Doubled(x, a);
    GrownServes(x, a);
    forall j | 0 <= j < |x'.headers|
      ensures Serves(x'.headers[j], a'.offset[j], a'.lo, a'.top[j], a'.entry)
    {
      if j < |x.headers| {
        assert Serves(x.headers[j], a.offset[j], a.lo, a.top[j], a.entry);
      }
    }
  }

  lemma GrownCurrent(x: Index, a: Aux)
    requires Inv(x, a, false) && Grow(x).Shaped()
    requires |Doubled(x, a).offset| == |Doubled(x, a).top| == |Grow(x).headers|
    ensures CurrentInv(Grow(x), Doubled(x, a), false)
  {
    GrownDistinct(x, a);
    var c := |x.Current().index|;
    UniqueRemainder(c - 1, 2 * c, 0, c - 1);
    assert Grow(x).Current() == Grown(x);
  }

  lemma GrownInv(x: Index, a: Aux)
    requires Inv(x, a, false)
    ensures Inv(Grow(x), Doubled(x, a), false) && Roomy(Grow(x), Doubled(x, a))
  {
    hide Distinct, Slot, Grown;
    GrownSize(x);
    GrownHeaders(x, a);
    GrownCurrent(x, a);
    assert Serves(x.Current(), a.offset[x.Last()], a.lo, a.top[x.Last()], a.entry);
  }

  lemma GrownDistinct(x: Index, a: Aux)
    requires Inv(x, a, false)
    ensures Distinct(Grown(x).index)
    ensures forall i | 0 <= i < |Grown(x).index| :: Grown(x).index[i] < x.unused + |x.Current().index|
  {
    var h, c, g := x.Current(), |x.Current().index|, Grown(x).index;
    forall i, j | 0 <= i < j < |g| ensures g[i] != g[j] {
      if j < c {
        var p, q := (h.tail + 1 + i) % c, (h.tail + 1 + j) % c;
        if p == q {
          DistinctRemainders(h.tail + 1 + i, h.tail + 1 + j, c);
        }
      }
    }
  }

  // ---------------------------------------------------------------------------------------
  // Lookup

  // Read at the slot of any block tb whose key is in place, a header leads to the slot of k.
  lemma SlotFound(offset: int, tb: int, k: int, capacity: nat)
    requires capacity > 0
    ensures FindSlot(Slot(offset, tb, capacity), tb * BLOCK_SIZE, k * BLOCK_SIZE, capacity) == Slot(offset, k, capacity)
  {
    BaseDifference(k, tb);
    ShiftRemainder(tb + offset, k - tb, capacity);
  }

  // In any header that has seen block k, the slot of k has k's base as key and, while k is
  // not released, k's block as value.
  lemma SlotHolds(x: Index, a: Aux, ahead: bool, j: nat, k: nat)
    requires Inv(x, a, ahead) && j < |x.headers| && a.lo <= k < a.top[j]
    ensures var h := x.headers[j];
      && |h.index| > 0
      && h.index[Slot(a.offset[j], k, |h.index|)] == a.entry[k]
      && x.Key(a.entry[k]) == k * BLOCK_SIZE
      && (a.hold[k].Blk? ==> x.Value(a.entry[k]) == a.hold[k])
  {
    assert Serves(x.headers[j], a.offset[j], a.lo, a.top[j], a.entry);
  }

  lemma BaseDifference(k: int, tb: int)
    ensures (k * BLOCK_SIZE - tb * BLOCK_SIZE) / BLOCK_SIZE == k - tb
  {
    UniqueRemainder((k - tb) * BLOCK_SIZE, BLOCK_SIZE, k - tb, 0);
  }

  // The next block of a bulk claim is one slot further.
  lemma SlotAfter(offset: int, k: int, capacity: nat)
    requires capacity > 0
    ensures (Slot(offset, k, capacity) + 1) % capacity == Slot(offset, k + 1, capacity)
  {
    ShiftRemainder(k + offset, 1, capacity);
  }
}
