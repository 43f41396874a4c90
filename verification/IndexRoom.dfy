/**
 When the block index has room: the test of insert_block_index_entry fails exactly when the
 block inserted one full circle earlier has not been released.
 */
module IndexRoom {
  import opened Modular
  import opened Sums
  import opened BlockIndex

  // The entry in the current header's slot for block number k, possibly of an earlier circle.
  function At(x: Index, a: Aux, k: int): Entry
    requires x.Shaped() && |a.offset| == |x.headers|
  {
    x.Current().index[Slot(a.offset[x.Last()], k, |x.Current().index|)]
  }

  // The slot has never been used, or was given back, or holds block number k.
  ghost predicate Accounted(x: Index, a: Aux, k: int)
    requires x.Shaped() && |a.offset| == |x.headers|
  {
    var e := At(x, a, k);
    || x.Key(e) == INVALID_BLOCK_BASE
    || x.Value(e) == Null
    || (0 <= k < |a.hold| && a.hold[k].Blk? && x.Value(e) == a.hold[k])
  }

  // All slots are accounted for, except the next one while it is being filled.
  ghost predicate Accounts(x: Index, a: Aux, filling: bool) {
    && x.Shaped() && |a.offset| == |x.headers|
    && forall k | |a.entry| - |x.Current().index| + (if filling then 1 else 0) <= k < |a.entry| :: Accounted(x, a, k)
  }

  // Two block numbers less than a circle apart have different entries.
  lemma OtherEntry(x: Index, a: Aux, ahead: bool, i: int, k: int)
    requires Inv(x, a, ahead) && 0 < k - i < |x.Current().index|
    ensures At(x, a, i) != At(x, a, k)
  {
    hide Serves, EntriesInv;
    var off, c := a.offset[x.Last()], |x.Current().index|;
    if Slot(off, i, c) == Slot(off, k, c) {
      DistinctRemainders(i + off, k + off, c);
    }
  }

  lemma SameSlot(x: Index, a: Aux, k: int)
    requires x.Shaped() && |a.offset| == |x.headers|
    ensures At(x, a, k - |x.Current().index|) == At(x, a, k)
  {
    FullCircle(k - |x.Current().index| + a.offset[x.Last()], |x.Current().index|);
  }

  // The test, exactly.
  lemma RoomExactly(x: Index, a: Aux)
    requires Inv(x, a, false) && Accounts(x, a, false)
    ensures var k := |a.entry| - |x.Current().index|;
      HasRoom(x) <==> !(k >= 0 && a.hold[k].Blk?)
  {
    var k := |a.entry| - |x.Current().index|;
    NextSlotIs(x, a);
    SameSlot(x, a, |a.entry|);
    assert Accounted(x, a, k);
    if k >= 0 && a.hold[k].Blk? {
      SlotHolds(x, a, false, x.Last(), k);
    }
  }

  lemma FirstAccounts()
    ensures Accounts(First(), Aux(0, [], [], [0], [0]), false)
  {
  }

  lemma KeyAccounts(x: Index, a: Aux, e: Entry, base: int)
    requires Inv(x, a, false) && Accounts(x, a, false) && e == NextOf(x, a)
    ensures Accounts(StoreKey(x, e, base), a, true)
  {
    hide Inv;
    var x' := StoreKey(x, e, base);
    forall k | |a.entry| - |x.Current().index| + 1 <= k < |a.entry| ensures Accounted(x', a, k) {
      OtherEntry(x, a, false, k, |a.entry|);
      assert Accounted(x, a, k);
    }
  }

  lemma TailAccounts(x: Index, a: Aux, tail: nat, filling: bool)
    requires Accounts(x, a, filling)
    ensures Accounts(StoreTail(x, tail), a, filling)
  {
    var x' := StoreTail(x, tail);
    forall k | |a.entry| - |x.Current().index| + (if filling then 1 else 0) <= k < |a.entry| ensures Accounted(x', a, k) {
      assert Accounted(x, a, k);
    }
  }

  // A failed insertion gives the slot back.
  lemma NullAccounts(x: Index, a: Aux)
    requires Inv(x, a, false) && Accounts(x, a, true)
    ensures Accounts(StoreValue(x, NextOf(x, a), Null), a, false)
  {
    hide Inv;
    var x' := StoreValue(x, NextOf(x, a), Null);
    SameSlot(x, a, |a.entry|);
    forall k | |a.entry| - |x.Current().index| <= k < |a.entry| ensures Accounted(x', a, k) {
      if k > |a.entry| - |x.Current().index| {
        OtherEntry(x, a, false, k, |a.entry|);
        assert Accounted(x, a, k);
      }
    }
  }

  lemma ValueAccounts(x: Index, a: Aux, b: Block)
    requires Inv(x, a, true) && Accounts(x, a, true)
    ensures |a.offset| == |a.top| == |x.headers| && Accounts(StoreValue(x, NextOf(x, a), Blk(b)), Inserted(x, a, b), false)
  {
    var x', a' := StoreValue(x, NextOf(x, a), Blk(b)), Inserted(x, a, b);
    forall k | |a'.entry| - |x.Current().index| <= k < |a'.entry| ensures Accounted(x', a', k) {
      if k < |a.entry| {
        OtherEntry(x, a, true, k, |a.entry|);
        assert Accounted(x, a, k);
      }
    }
  }

  lemma ReleaseAccounts(x: Index, a: Aux, ahead: bool, k: nat, filling: bool)
    requires Inv(x, a, ahead) && Accounts(x, a, filling) && a.lo <= k < |a.entry| && a.hold[k].Blk?
    ensures Accounts(StoreValue(x, a.entry[k], Null), a.(hold := a.hold[k := Null]), filling)
  {
    var x', a' := StoreValue(x, a.entry[k], Null), a.(hold := a.hold[k := Null]);
    SlotHolds(x, a, ahead, x.Last(), k);
    forall i | |a.entry| - |x.Current().index| + (if filling then 1 else 0) <= i < |a.entry| ensures Accounted(x', a', i) {
      assert Accounted(x, a, i);
    }
  }

  // The doubled index keeps the entries of the last circle and has new ones for the other.
  lemma GrownIndex(x: Index, j: int)
    requires x.Shaped() && 0 <= j < 2 * |x.Current().index|
    ensures var h, c := x.Current(), |x.Current().index|;
      |Grown(x).index| == 2 * c && Grown(x).index[j] == if j < c then h.index[(h.tail + 1 + j) % c] else x.unused + j - c
  {
  }

  lemma GrownSlots(x: Index, a: Aux, k: int)
    requires Inv(x, a, false) && |a.entry| - 2 * |x.Current().index| <= k < |a.entry|
    ensures Grow(x).Shaped() && |Doubled(x, a).offset| == |Grow(x).headers|
    ensures k >= |a.entry| - |x.Current().index| ==> At(Grow(x), Doubled(x, a), k) == At(x, a, k)
    ensures k < |a.entry| - |x.Current().index| ==> At(Grow(x), Doubled(x, a), k) >= x.unused
  {
    hide EntriesInv, Serves, Distinct, Grown;
    var h, off, c, n := x.Current(), a.offset[x.Last()], |x.Current().index|, |a.entry|;
    var j := k + c - n;
    GrownSize(x);
    assert Grow(x).Current() == Grown(x);
    if j >= 0 {
      GrownIndex(x, j);
      UniqueRemainder(j, 2 * c, 0, j);
      CircleFrom(h.tail, n, off, j, k, c);
    } else {
      GrownIndex(x, j + 2 * c);
      UniqueRemainder(j, 2 * c, -1, j + 2 * c);
    }
  }

  lemma GrownAccounts(x: Index, a: Aux)
    requires Inv(x, a, false) && Accounts(x, a, false)
    ensures Accounts(Grow(x), Doubled(x, a), false)
  {
    hide Grown, At, EntriesInv, CurrentInv;
    var x', a' := Grow(x), Doubled(x, a);
    GrownSize(x);
    GrownSlots(x, a, |a.entry| - 1);
    forall k | |a.entry| - 2 * |x.Current().index| <= k < |a.entry| ensures Accounted(x', a', k) {
      GrownSlots(x, a, k);
      if k >= |a.entry| - |x.Current().index| { assert Accounted(x, a, k); }
    }
  }

  // The slot offered after doubling has never been used.
  lemma GrownSlotIsNew(x: Index, a: Aux)
    requires Inv(x, a, false)
    ensures Grow(x).Shaped() && Grow(x).Key(Grow(x).NextEntry()) == INVALID_BLOCK_BASE
  {
    hide Grown, At, EntriesInv, CurrentInv, HeadersInv;
    var k := |a.entry| - 2 * |x.Current().index|;
    GrownSize(x);
    GrownSlots(x, a, k);
    GrownInv(x, a);
    NextSlotIs(Grow(x), Doubled(x, a));
    SameSlot(Grow(x), Doubled(x, a), |a.entry|);
    NextOfIsAt(Grow(x), Doubled(x, a));
  }

  lemma NextOfIsAt(x: Index, a: Aux)
    requires x.Shaped() && |a.offset| == |x.headers|
    ensures NextOf(x, a) == At(x, a, |a.entry|)
  {
  }
}
