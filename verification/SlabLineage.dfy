/**
 The blocks of a slab pool over whole runs: which ones a shrink can still release.

 `kept` are the records of the blocks that survived a shrink, `across` the slots that were live
 at the last shrink. After that shrink exactly these slots have an owner pointer to a record that
 no longer exists.
 */
module SlabLineage {
  import opened Sums
  import opened SlabStore
  import opened SlabSteps

  datatype Memory = Memory(bs: Blocks, hs: Headers, kept: set<Record>, across: set<Address>)

  // ---------------------------------------------------------------------------------------
  // What one operation does

  // A block that was there stays, and so do its surplus and its slots' owners.
  ghost predicate Remains(bs: Blocks, hs: Headers, bs': Blocks, hs': Headers, r: Record)
    requires r in bs
  {
    && r in bs' && bs'[r] == bs[r].(used := bs'[r].used)
    && Surplus(bs', hs', r) == Surplus(bs, hs, r)
    && (forall h | h in SlotsOf(bs[r]) :: h in hs && h in hs' && hs'[h].owner == hs[h].owner)
  }

  // A new block: no surplus, all slots its own, none of them a slot of another block.
  ghost predicate Appears(bs: Blocks, bs': Blocks, hs': Headers, r: Record)
    requires r in bs'
  {
    && Surplus(bs', hs', r) == 0
    && (forall h | h in SlotsOf(bs'[r]) :: h in hs' && hs'[h].owner == r && !Slotted(bs, h))
  }

  // An allocation or a free.
  ghost predicate Works(bs: Blocks, hs: Headers, bs': Blocks, hs': Headers) {
    && (forall r | r in bs :: Remains(bs, hs, bs', hs', r))
    && (forall r | r in bs' && r !in bs :: Appears(bs, bs', hs', r))
  }

  // A shrink: the blocks in use stay under new records, and only idle slots name these.
  ghost predicate Shrinks(bs: Blocks, hs: Headers, bs': Blocks, hs': Headers, from: map<Record, Record>) {
    && Descends(bs, bs', from) && SameUse(hs, hs')
    && (forall r | r in bs :: r in from.Values <==> bs[r].used > 0)
    && (forall r | r in bs' :: Settled(hs', r, bs'[r]) && SlotsOf(bs'[r]) <= hs'.Keys)
    && (forall r, q, h | r in bs' && q in bs' && h in SlotsOf(bs'[r]) && h in SlotsOf(bs'[q]) :: r == q)
  }

  // The live slots of all blocks.
  ghost function AllLive(bs: Blocks, hs: Headers): set<Address> {
    set r, h | r in bs && h in LiveSlots(hs, bs[r]) :: h
  }

  ghost predicate Follows(m: Memory, m': Memory) {
    || (Works(m.bs, m.hs, m'.bs, m'.hs) && m'.kept == m.kept && m'.across == m.across)
    || (m'.kept == m'.bs.Keys && m'.across == AllLive(m'.bs, m'.hs) && exists from :: Shrinks(m.bs, m.hs, m'.bs, m'.hs, from))
  }

  // ---------------------------------------------------------------------------------------
  // The invariant

  ghost function Weight(bs: Blocks, hs: Headers, r: Record): int
    requires r in bs
  {
    Surplus(bs, hs, r) + |StaleSlots(hs, r, bs[r])|
  }

  // The slots of r name r unless they were live at the last shrink.
  ghost predicate Named(m: Memory, r: Record)
    requires r in m.bs
  {
    forall h | h in SlotsOf(m.bs[r]) :: h in m.hs && (m.hs[h].owner == r <==> h !in m.across)
  }

  // A block that survived a shrink counts something no free will ever take off; any other block
  // counts its live slots.
  ghost predicate Lineage(m: Memory) {
    && m.kept <= m.bs.Keys
    && (forall r | r in m.bs :: Named(m, r))
    && (forall r | r in m.kept :: Weight(m.bs, m.hs, r) > 0)
    && (forall r | r in m.bs && r !in m.kept :: Surplus(m.bs, m.hs, r) == 0 && StaleSlots(m.hs, r, m.bs[r]) == {})
    && (forall h | h in m.across :: Slotted(m.bs, h))
  }

  lemma SameStale(bs: Blocks, hs: Headers, bs': Blocks, hs': Headers, r: Record)
    requires r in bs && Remains(bs, hs, bs', hs', r)
    ensures SlotsOf(bs'[r]) == SlotsOf(bs[r]) && StaleSlots(hs', r, bs'[r]) == StaleSlots(hs, r, bs[r])
    ensures Weight(bs', hs', r) == Weight(bs, hs, r)
  {
    hide SlotsOf, Charged;
    SameSlots(bs[r], bs'[r].used);
  }

  lemma NewIsClean(bs: Blocks, bs': Blocks, hs': Headers, r: Record)
    requires r in bs' && Appears(bs, bs', hs', r)
    ensures StaleSlots(hs', r, bs'[r]) == {}
  {
    hide SlotsOf, Charged;
  }

  lemma WorksNamed(m: Memory, m': Memory, r: Record)
    requires Lineage(m) && Works(m.bs, m.hs, m'.bs, m'.hs) && m'.across == m.across && r in m'.bs
    ensures Named(m', r)
  {
    hide SlotsOf, Surplus, StaleSlots, Weight;
    if r in m.bs {
      assert Remains(m.bs, m.hs, m'.bs, m'.hs, r) && Named(m, r);
      SameSlots(m.bs[r], m'.bs[r].used);
    } else {
      assert Appears(m.bs, m'.bs, m'.hs, r);
    }
  }

  lemma StillSlotted(bs: Blocks, hs: Headers, bs': Blocks, hs': Headers, h: Address)
    requires Works(bs, hs, bs', hs') && Slotted(bs, h)
    ensures Slotted(bs', h)
  {
    hide SlotsOf, Surplus;
    var r :| r in bs && h in SlotsOf(bs[r]);
    assert Remains(bs, hs, bs', hs', r);
    SameSlots(bs[r], bs'[r].used);
    assert r in bs' && h in SlotsOf(bs'[r]);
  }

  lemma WorksLineage(m: Memory, m': Memory)
    requires Lineage(m) && Works(m.bs, m.hs, m'.bs, m'.hs) && m'.kept == m.kept && m'.across == m.across
    ensures Lineage(m')
  {
    hide SlotsOf, StaleSlots, Weight, Surplus, Slotted, Named;
    forall r | r in m'.bs ensures Named(m', r) { WorksNamed(m, m', r); }
    forall r | r in m.bs
      ensures r in m'.bs && Weight(m'.bs, m'.hs, r) == Weight(m.bs, m.hs, r)
      ensures Surplus(m'.bs, m'.hs, r) == Surplus(m.bs, m.hs, r) && StaleSlots(m'.hs, r, m'.bs[r]) == StaleSlots(m.hs, r, m.bs[r])
    {
      assert Remains(m.bs, m.hs, m'.bs, m'.hs, r);
      SameStale(m.bs, m.hs, m'.bs, m'.hs, r);
    }
    forall r | r in m'.bs && r !in m.bs ensures Surplus(m'.bs, m'.hs, r) == 0 && StaleSlots(m'.hs, r, m'.bs[r]) == {} {
      assert Appears(m.bs, m'.bs, m'.hs, r);
      NewIsClean(m.bs, m'.bs, m'.hs, r);
    }
    forall h | h in m'.across ensures Slotted(m'.bs, h) { StillSlotted(m.bs, m.hs, m'.bs, m'.hs, h); }
  }

  // After a shrink a block's weight is its counter, which is not zero.
  lemma ShrunkWeight(bs: Blocks, hs: Headers, r: Record)
    requires r in bs && Settled(hs, r, bs[r]) && SlotsOf(bs[r]) <= hs.Keys
    ensures StaleSlots(hs, r, bs[r]) == LiveSlots(hs, bs[r]) && Weight(bs, hs, r) == bs[r].used
    ensures Surplus(bs, hs, r) == bs[r].used - |LiveSlots(hs, bs[r])|
  {
    hide SlotsOf;
    assert StaleSlots(hs, r, bs[r]) == LiveSlots(hs, bs[r]);
    assert Charged(hs, r, bs[r]) == LiveSlots(hs, bs[r]);
  }

  lemma ShrunkNamed(m: Memory, m': Memory, from: map<Record, Record>, r: Record)
    requires Shrinks(m.bs, m.hs, m'.bs, m'.hs, from) && m'.across == AllLive(m'.bs, m'.hs) && r in m'.bs
    ensures Named(m', r)
  {
    hide SlotsOf, SameUse, Descends;
    assert Settled(m'.hs, r, m'.bs[r]);
    forall h | h in SlotsOf(m'.bs[r]) ensures h in m'.across <==> m'.hs[h].live {
      if m'.hs[h].live { assert h in LiveSlots(m'.hs, m'.bs[r]); }
    }
  }

  lemma ShrinkUsed(bs: Blocks, hs: Headers, bs': Blocks, hs': Headers, from: map<Record, Record>, r: Record)
    requires Shrinks(bs, hs, bs', hs', from) && r in bs'
    ensures from[r] in bs && bs'[r] == bs[from[r]] && bs'[r].used > 0
  {
    hide SlotsOf, SameUse, Settled;
    assert from[r] in from.Values;
  }

  lemma ShrinkLineage(m: Memory, m': Memory, from: map<Record, Record>)
    requires Shrinks(m.bs, m.hs, m'.bs, m'.hs, from) && m'.kept == m'.bs.Keys && m'.across == AllLive(m'.bs, m'.hs)
    ensures Lineage(m')
  {
    hide SlotsOf, SameUse, Descends, Weight, Surplus, Settled, Named;
    forall r | r in m'.bs ensures Named(m', r) && Weight(m'.bs, m'.hs, r) > 0 {
      ShrunkNamed(m, m', from, r);
      ShrinkUsed(m.bs, m.hs, m'.bs, m'.hs, from, r);
      ShrunkWeight(m'.bs, m'.hs, r);
    }
    forall h | h in m'.across ensures Slotted(m'.bs, h) {
      var r :| r in m'.bs && h in LiveSlots(m'.hs, m'.bs[r]);
      assert h in SlotsOf(m'.bs[r]);
    }
  }

  // ---------------------------------------------------------------------------------------
  // What a shrink releases

  lemma CounterParts(hs: Headers, r: Record, b: Block)
    ensures |StaleSlots(hs, r, b)| <= |Charged(hs, r, b)|
    ensures StaleSlots(hs, r, b) == {} ==> Charged(hs, r, b) == LiveSlots(hs, b)
  {
    hide LiveSlots, StaleSlots;
    SubsetSize(StaleSlots(hs, r, b), Charged(hs, r, b));
  }

  // A counter is zero exactly when the block has no live slot and never survived a shrink.
  lemma ZeroExactly(m: Memory, r: Record)
    requires Lineage(m) && r in m.bs
    ensures m.bs[r].used == 0 <==> r !in m.kept && LiveSlots(m.hs, m.bs[r]) == {}
    ensures r in m.kept ==> m.bs[r].used > 0
  {
    hide LiveSlots, StaleSlots, Charged, Named;
    CounterParts(m.hs, r, m.bs[r]);
    if r in m.kept { assert Weight(m.bs, m.hs, r) > 0; }
  }

  // A shrink releases every idle block exactly when every block that survived an earlier shrink
  // has a live slot.
  lemma ReleasesAllIdle(m: Memory)
    requires Lineage(m)
    ensures (forall r | r in m.bs && LiveSlots(m.hs, m.bs[r]) == {} :: m.bs[r].used == 0)
       <==> (forall r | r in m.kept :: LiveSlots(m.hs, m.bs[r]) != {})
  {
    hide LiveSlots, StaleSlots, Weight, Surplus, Named;
    forall r | r in m.bs
      ensures m.bs[r].used == 0 <==> r !in m.kept && LiveSlots(m.hs, m.bs[r]) == {}
    {
      ZeroExactly(m, r);
    }
  }

  // The pool's write through the owner pointer of a slot reaches a record of the pool exactly
  // when the slot was not live at the last shrink.
  lemma OwnerExists(m: Memory, next: Record, r: Record, h: Address)
    requires Lineage(m) && HeadersOk(m.bs, m.hs, next) && r in m.bs && h in SlotsOf(m.bs[r])
    ensures h in m.hs && (m.hs[h].owner in m.bs <==> h !in m.across)
    ensures m.hs[h].owner in m.bs <==> m.hs[h].owner == r
  {
    hide SlotsOf, StaleSlots, Weight, Surplus, HeadersOk;
    SlotFacts(m.bs, m.hs, next, r, h);
    assert Named(m, r);
  }

  // ---------------------------------------------------------------------------------------
  // Whole runs

  // The same block, up to its record and its counter.
  predicate SameBlock(b: Block, c: Block) {
    c == b.(used := c.used)
  }

  ghost predicate Trace(ms: seq<Memory>) {
    |ms| > 0 && forall i, j | 0 <= i && j == i + 1 < |ms| :: Follows(ms[i], ms[j])
  }

  lemma FollowsLineage(m: Memory, m': Memory)
    requires Lineage(m) && Follows(m, m')
    ensures Lineage(m')
  {
    hide Lineage, Works, Shrinks;
    if Works(m.bs, m.hs, m'.bs, m'.hs) && m'.kept == m.kept && m'.across == m.across {
      WorksLineage(m, m');
    } else {
      var from :| Shrinks(m.bs, m.hs, m'.bs, m'.hs, from);
      ShrinkLineage(m, m', from);
    }
  }

  // One operation keeps a block that survived a shrink.
  lemma KeptOnce(m: Memory, m': Memory, r: Record) returns (q: Record)
    requires Lineage(m) && Follows(m, m') && r in m.kept
    ensures q in m'.kept && q in m'.bs && SameBlock(m.bs[r], m'.bs[q])
  {
    hide Works, Shrinks, Lineage;
    InKept(m, r);
    ZeroExactly(m, r);
    if Works(m.bs, m.hs, m'.bs, m'.hs) && m'.kept == m.kept && m'.across == m.across {
      BlockRemains(m.bs, m.hs, m'.bs, m'.hs, r);
      q := r;
    } else {
      var from :| Shrinks(m.bs, m.hs, m'.bs, m'.hs, from);
      q := Heir(m.bs, m.hs, m'.bs, m'.hs, from, r);
    }
  }

  lemma BlockRemains(bs: Blocks, hs: Headers, bs': Blocks, hs': Headers, r: Record)
    requires Works(bs, hs, bs', hs') && r in bs
    ensures r in bs' && SameBlock(bs[r], bs'[r]) && Surplus(bs', hs', r) == Surplus(bs, hs, r)
  {
    hide SlotsOf, Surplus, Appears;
    assert Remains(bs, hs, bs', hs', r);
  }

  // A block in use has an heir after a shrink.
  lemma Heir(bs: Blocks, hs: Headers, bs': Blocks, hs': Headers, from: map<Record, Record>, r: Record) returns (q: Record)
    requires Shrinks(bs, hs, bs', hs', from) && r in bs && bs[r].used > 0
    ensures q in bs' && bs'[q] == bs[r]
    ensures SameUse(hs, hs') && Settled(hs', q, bs'[q]) && SlotsOf(bs'[q]) <= hs'.Keys
  {
    hide SlotsOf, SameUse, Settled;
    assert r in from.Values;
    q :| q in from && from[q] == r;
  }

  // Whatever operations follow, a block that survived a shrink is never released.
  lemma {:induction false} KeptForEver(ms: seq<Memory>, r: Record) returns (q: Record)
    requires Trace(ms) && Lineage(ms[0]) && r in ms[0].kept
    ensures var last := ms[|ms| - 1];
      q in last.bs && q in last.kept && last.bs[q].used > 0 && SameBlock(ms[0].bs[r], last.bs[q])
    decreases |ms|
  {
    hide Follows, Lineage;
    InKept(ms[0], r);
    if |ms| == 1 {
      q := r;
      ZeroExactly(ms[0], r);
    } else {
      assert Follows(ms[0], ms[1]);
      FollowsLineage(ms[0], ms[1]);
      var s := KeptOnce(ms[0], ms[1], r);
      TraceRest(ms);
      q := KeptForEver(ms[1..], s);
    }
  }

  lemma InKept(m: Memory, r: Record)
    requires Lineage(m) && r in m.kept
    ensures r in m.bs
  {
  }

  lemma TraceRest(ms: seq<Memory>)
    requires Trace(ms) && |ms| > 1
    ensures Trace(ms[1..])
  {
    hide Follows;
    var rest := ms[1..];
    forall i, j | 0 <= i && j == i + 1 < |rest| ensures Follows(rest[i], rest[j]) {
      assert Follows(ms[i + 1], ms[j + 1]);
    }
  }

  // A surplus never shrinks.
  lemma SurplusOnce(m: Memory, m': Memory, r: Record) returns (q: Record)
    requires Follows(m, m') && r in m.bs && Surplus(m.bs, m.hs, r) > 0
    ensures q in m'.bs && SameBlock(m.bs[r], m'.bs[q]) && Surplus(m'.bs, m'.hs, q) >= Surplus(m.bs, m.hs, r)
  {
    hide Works, Shrinks, Charged, LiveSlots, StaleSlots, Settled, SlotsOf, SameUse;
    if Works(m.bs, m.hs, m'.bs, m'.hs) && m'.kept == m.kept && m'.across == m.across {
      BlockRemains(m.bs, m.hs, m'.bs, m'.hs, r);
      q := r;
    } else {
      var from :| Shrinks(m.bs, m.hs, m'.bs, m'.hs, from);
      q := Heir(m.bs, m.hs, m'.bs, m'.hs, from, r);
      ShrunkWeight(m'.bs, m'.hs, q);
      UseLive(m.hs, m'.hs, m.bs[r]);
      LiveCharged(m.hs, r, m.bs[r]);
    }
  }

  lemma {:induction false} SurplusForEver(ms: seq<Memory>, r: Record) returns (q: Record)
    requires Trace(ms) && r in ms[0].bs && Surplus(ms[0].bs, ms[0].hs, r) > 0
    ensures var last := ms[|ms| - 1];
      && q in last.bs && SameBlock(ms[0].bs[r], last.bs[q])
      && Surplus(last.bs, last.hs, q) >= Surplus(ms[0].bs, ms[0].hs, r)
      && last.bs[q].used > |LiveSlots(last.hs, last.bs[q])|
    decreases |ms|
  {
    hide Follows, Charged, LiveSlots;
    if |ms| == 1 {
      q := r;
      LiveCharged(ms[0].hs, r, ms[0].bs[r]);
    } else {
      assert Follows(ms[0], ms[1]);
      var s := SurplusOnce(ms[0], ms[1], r);
      TraceRest(ms);
      q := SurplusForEver(ms[1..], s);
    }
  }

  // ---------------------------------------------------------------------------------------
  // The operations

  // A slot is handed out or taken back.
  lemma SlotWorks(bs: Blocks, hs: Headers, bs': Blocks, hs': Headers, next: Record, h: Address)
    requires SameShape(bs, bs') && OnlyAt(hs, hs', h) && SurplusKept(bs, hs, bs', hs') && HeadersOk(bs, hs, next)
    ensures Works(bs, hs, bs', hs')
  {
    hide SlotsOf, Surplus, HeadersOk;
    forall r | r in bs ensures Remains(bs, hs, bs', hs', r) {
      SlotsKnown(bs, hs, next, r);
      assert Surplus(bs', hs', r) == Surplus(bs, hs, r);
    }
  }

  lemma BlockWorks(cfg: Config, bs: Blocks, hs: Headers, hs': Headers, next: Record, large: seq<Address>, b: Block, size: nat)
    requires BlocksOk(cfg, bs, next) && LargeOk(cfg, bs, hs, large) && HeadersOk(bs, hs, next)
    requires BlockOk(cfg, b) && Fresh(cfg, bs, hs, large, b.base, cfg.blockSize) && Carved(hs, hs', b, next, size) && b.used == 1
    requires SurplusKept(bs, hs, bs[next := b], hs')
    ensures Works(bs, hs, bs[next := b], hs')
  {
    hide SlotsOf, BlocksOk, LargeOk, HeadersOk, BlockOk, Fresh, Surplus;
    var bs' := bs[next := b];
    NotYet(cfg, bs, next);
    forall r | r in bs ensures Remains(bs, hs, bs', hs', r) {
      NewSeparate(cfg, bs, hs, next, large, b, r);
      assert Surplus(bs', hs', r) == Surplus(bs, hs, r);
    }
    NewSurplus(bs, hs, hs', next, b, size);
    forall h | h in SlotsOf(b) ensures !Slotted(bs, h) { FreshSlots(cfg, bs, next, hs, large, b, h); }
  }

  lemma NewSurplus(bs: Blocks, hs: Headers, hs': Headers, next: Record, b: Block, size: nat)
    requires Carved(hs, hs', b, next, size) && b.used == 1
    ensures Surplus(bs[next := b], hs', next) == 0
  {
    hide SlotsOf, Charged;
    NewSame(hs, hs', b, next, size);
  }

  // A header outside all slots comes or goes.
  lemma LargeWorks(bs: Blocks, hs: Headers, hs': Headers, next: Record, h: Address)
    requires HeadersOk(bs, hs, next) && SameBut(hs, hs', h) && !Slotted(bs, h) && SurplusKept(bs, hs, bs, hs')
    ensures Works(bs, hs, bs, hs')
  {
    hide SlotsOf, Surplus, HeadersOk;
    forall r | r in bs ensures Remains(bs, hs, bs, hs', r) {
      SlotsKnown(bs, hs, next, r);
      assert Surplus(bs, hs', r) == Surplus(bs, hs, r);
    }
  }

  lemma NothingWorks(bs: Blocks, hs: Headers, next: Record)
    requires HeadersOk(bs, hs, next)
    ensures Works(bs, hs, bs, hs)
  {
    hide SlotsOf, Surplus, HeadersOk;
    forall r | r in bs ensures Remains(bs, hs, bs, hs, r) { SlotsKnown(bs, hs, next, r); }
  }

  lemma ShrinksFrom(cfg: Config, bs: Blocks, hs: Headers, bs': Blocks, hs': Headers, next: Record, from: map<Record, Record>)
    requires Descends(bs, bs', from) && SameUse(hs, hs') && forall r | r in bs :: r in from.Values <==> bs[r].used > 0
    requires (forall r | r in bs' :: Settled(hs', r, bs'[r])) && BlocksOk(cfg, bs', next) && HeadersOk(bs', hs', next)
    ensures Shrinks(bs, hs, bs', hs', from)
  {
    hide SlotsOf, BlocksOk, HeadersOk, Settled, Descends, SameUse;
    forall r | r in bs' ensures SlotsOf(bs'[r]) <= hs'.Keys { SlotsKnown(bs', hs', next, r); }
    forall r, q, h | r in bs' && q in bs' && h in SlotsOf(bs'[r]) && h in SlotsOf(bs'[q]) ensures r == q {
      UniqueBlock(cfg, bs', next, r, q, h);
    }
  }
}
