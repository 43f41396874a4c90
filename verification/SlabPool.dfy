/**
 The slab pool: small allocations are slots of blocks cut by size class, large ones go to the
 underlying allocator, and Shrink returns idle blocks to it.

 Addresses that the underlying allocator hands out are parameters; 0 stands for its failure
 and for NULL.
 */
module SlabPool {
  import opened Sums
  import opened Modular
  import opened SlabStore
  import opened SlabSteps
  import opened SlabLineage

  // The smallest class that holds size bytes, or CLASSES.
  method SizeClassIndex(size: nat) returns (c: nat)
    ensures c <= CLASSES && (c < CLASSES <==> size <= 4096)
    ensures c < CLASSES ==> size <= SIZES[c]
    ensures forall j | 0 <= j < c :: SIZES[j] < size
  {
    c := 0;
    while c < CLASSES
      invariant c <= CLASSES && forall j | 0 <= j < c :: SIZES[j] < size
    {
      if size <= SIZES[c] {
        assert SIZES[c] <= SIZES[9] by { assert c <= 9; }
        return;
      }
      c := c + 1;
    }
    assert SIZES[9] < size;
  }

  // ---------------------------------------------------------------------------------------
  // What clients see

  // h became held with this size; everything else that was held still is, unchanged.
  ghost predicate Gained(bs: Blocks, hs: Headers, large: seq<Address>, bs': Blocks, hs': Headers, large': seq<Address>,
                         h: Address, size: nat)
  {
    && !Held(bs, hs, large, h) && Held(bs', hs', large', h) && hs'[h].size == size
    && (forall g | g != h :: Held(bs', hs', large', g) <==> Held(bs, hs, large, g))
    && (forall g | g != h && Held(bs, hs, large, g) :: hs'[g] == hs[g])
  }

  ghost predicate Dropped(bs: Blocks, hs: Headers, large: seq<Address>, bs': Blocks, hs': Headers, large': seq<Address>, h: Address) {
    && Held(bs, hs, large, h) && !Held(bs', hs', large', h)
    && (forall g | g != h :: Held(bs', hs', large', g) <==> Held(bs, hs, large, g))
    && (forall g | g != h && Held(bs, hs, large, g) :: hs'[g] == hs[g])
  }

  // An allocation: the client gains h, no block goes, and no counter drifts.
  ghost predicate Allocated(bs: Blocks, hs: Headers, large: seq<Address>, bs': Blocks, hs': Headers, large': seq<Address>,
                            h: Address, size: nat)
  {
    && Gained(bs, hs, large, bs', hs', large', h, size)
    && Works(bs, hs, bs', hs') && (Exact(bs, hs) ==> Exact(bs', hs'))
  }

  lemma ShapeSlotted(bs: Blocks, bs': Blocks, h: Address)
    requires SameShape(bs, bs')
    ensures Slotted(bs', h) <==> Slotted(bs, h)
  {
    hide SlotsOf;
    forall r | r in bs ensures SlotsOf(bs'[r]) == SlotsOf(bs[r]) { ShapeSlots(bs, bs', r); }
  }

  lemma TakeGains(bs: Blocks, bs': Blocks, hs: Headers, large: seq<Address>, r: Record, h: Address, c: nat, size: nat)
    requires SameShape(bs, bs') && r in bs && h in SlotsOf(bs[r]) && h in hs && !hs[h].live
    ensures Gained(bs, hs, large, bs', Marked(hs, h, c, size), large, h, size)
  {
    hide SlotsOf, SameShape;
    assert Slotted(bs, h);
    hide Slotted;
    forall g ensures Slotted(bs', g) <==> Slotted(bs, g) { ShapeSlotted(bs, bs', g); }
  }

  lemma GiveDrops(bs: Blocks, bs': Blocks, hs: Headers, large: seq<Address>, r: Record, h: Address)
    requires SameShape(bs, bs') && r in bs && h in SlotsOf(bs[r]) && Live(hs, h)
    ensures Dropped(bs, hs, large, bs', Unmarked(hs, h), large, h)
  {
    hide SlotsOf, SameShape;
    forall g ensures Slotted(bs', g) <==> Slotted(bs, g) { ShapeSlotted(bs, bs', g); }
  }

  lemma NewGains(cfg: Config, bs: Blocks, hs: Headers, hs': Headers, next: Record, large: seq<Address>, b: Block, size: nat)
    requires BlocksOk(cfg, bs, next) && LargeOk(cfg, bs, hs, large) && HeadersOk(bs, hs, next)
    requires BlockOk(cfg, b) && Fresh(cfg, bs, hs, large, b.base, cfg.blockSize) && Carved(hs, hs', b, next, size)
    ensures Gained(bs, hs, large, bs[next := b], hs', large, b.base, size)
  {
    hide SlotsOf, LargeOk, HeadersOk, BlockOk, Fresh;
    var bs' := bs[next := b];
    NotYet(cfg, bs, next);
    forall g ensures Slotted(bs', g) <==> Slotted(bs, g) || g in SlotsOf(b) { AddedSlotted(bs, next, b, g); }
    forall g | g in SlotsOf(b) ensures g !in large && !Slotted(bs, g) { FreshSlots(cfg, bs, next, hs, large, b, g); }
    LargeKnown(cfg, bs, hs, large);
    forall g | Slotted(bs, g) ensures g in hs {
      var r :| r in bs && g in SlotsOf(bs[r]);
      SlotsKnown(bs, hs, next, r);
    }
  }

  lemma LargeKnown(cfg: Config, bs: Blocks, hs: Headers, large: seq<Address>)
    requires LargeOk(cfg, bs, hs, large)
    ensures forall g | g in large :: g in hs && hs[g].live
  {
  }

  lemma AddedSlotted(bs: Blocks, r: Record, b: Block, g: Address)
    requires r !in bs
    ensures Slotted(bs[r := b], g) <==> Slotted(bs, g) || g in SlotsOf(b)
  {
    hide SlotsOf;
    var bs' := bs[r := b];
    if Slotted(bs, g) {
      var q :| q in bs && g in SlotsOf(bs[q]);
      assert q in bs' && g in SlotsOf(bs'[q]);
    }
    if g in SlotsOf(b) { assert r in bs' && g in SlotsOf(bs'[r]); }
  }

  lemma LargeGains(cfg: Config, bs: Blocks, hs: Headers, next: Record, large: seq<Address>, raw: Address, size: nat)
    requires BlocksOk(cfg, bs, next) && LargeOk(cfg, bs, hs, large) && Fresh(cfg, bs, hs, large, raw, Footprint(cfg, size))
    ensures Gained(bs, hs, large, bs, hs[raw := Header(true, LARGE, size, 0)], large + [raw], raw, size)
  {
    hide SlotsOf, BlocksOk, Fresh, LargeOk;
    LargeApart(cfg, bs, hs, next, large, raw, Footprint(cfg, size));
    assert !Slotted(bs, raw);
    assert forall g :: g in large + [raw] <==> g in large || g == raw;
  }

  lemma LargeDrops(cfg: Config, bs: Blocks, hs: Headers, next: Record, large: seq<Address>, rest: seq<Address>, h: Address)
    requires BlocksOk(cfg, bs, next) && LargeOk(cfg, bs, hs, large) && h in large
    requires forall g :: g in rest <==> g in large && g != h
    ensures Dropped(bs, hs, large, bs, hs - {h}, rest, h)
  {
    hide SlotsOf, BlocksOk;
    LargeKnown(cfg, bs, hs, large);
  }

  lemma UnchangedFollows(cfg: Config, m: Memory, next: Record, free: FreeLists, large: seq<Address>)
    requires StoreOk(cfg, m.bs, m.hs, next, free, large)
    ensures Follows(m, m)
  {
    hide BlocksOk, HeadersOk, CountsOk, FreesOk, LargeOk, Works;
    NothingWorks(m.bs, m.hs, next);
  }

  // The class in a live header says where the allocation is.
  lemma DispatchIsRight(cfg: Config, bs: Blocks, hs: Headers, next: Record, free: FreeLists, large: seq<Address>, h: Address)
    requires StoreOk(cfg, bs, hs, next, free, large) && Live(hs, h) && (Slotted(bs, h) || h in large)
    ensures hs[h].cls == LARGE ==> h in large
    ensures hs[h].cls != LARGE ==> Slotted(bs, h)
  {
    hide BlocksOk, HeadersOk, CountsOk, FreesOk, Slotted;
    if hs[h].cls == LARGE { SlabIsNotLarge(cfg, bs, hs, next, h); }
  }

  lemma SlabIsNotLarge(cfg: Config, bs: Blocks, hs: Headers, next: Record, h: Address)
    requires HeadersOk(bs, hs, next) && Live(hs, h) && hs[h].cls == LARGE
    ensures !Slotted(bs, h)
  {
    hide SlotsOf;
    forall r | r in bs && h in SlotsOf(bs[r]) ensures false { SlotFacts(bs, hs, next, r, h); }
  }

  lemma SwapRemove<T>(s: seq<T>, i: nat)
    requires i < |s| && Distinct(s)
    ensures var t := s[i := s[|s| - 1]][..|s| - 1];
      Distinct(t) && forall g :: g in t <==> g in s && g != s[i]
  {
    var t := s[i := s[|s| - 1]][..|s| - 1];
    forall g | g in s && g != s[i] ensures g in t {
      var k :| 0 <= k < |s| && s[k] == g;
      if k < |s| - 1 { assert t[k] == g; } else { assert t[i] == g; }
    }
  }

  // What the clients hold, with the requested sizes.
  ghost function HeldSizes(bs: Blocks, hs: Headers, large: seq<Address>): map<Address, nat> {
    map h | h in hs && Held(bs, hs, large, h) :: hs[h].size
  }

  lemma GainedSizes(bs: Blocks, hs: Headers, large: seq<Address>, bs': Blocks, hs': Headers, large': seq<Address>, h: Address, size: nat)
    requires Gained(bs, hs, large, bs', hs', large', h, size)
    ensures Sum(HeldSizes(bs', hs', large')) == Sum(HeldSizes(bs, hs, large)) + size
  {
    hide Slotted;
    assert HeldSizes(bs', hs', large') == HeldSizes(bs, hs, large)[h := size];
    SumUpdate(HeldSizes(bs, hs, large), h, size);
  }

  lemma DroppedSizes(bs: Blocks, hs: Headers, large: seq<Address>, bs': Blocks, hs': Headers, large': seq<Address>, h: Address)
    requires Dropped(bs, hs, large, bs', hs', large', h)
    ensures Sum(HeldSizes(bs, hs, large)) == Sum(HeldSizes(bs', hs', large')) + hs[h].size
  {
    hide Slotted;
    assert HeldSizes(bs', hs', large') == HeldSizes(bs, hs, large) - {h};
    SumRemove(HeldSizes(bs, hs, large), h);
  }

  lemma ShrunkSizes(bs: Blocks, hs: Headers, large: seq<Address>, bs': Blocks, hs': Headers)
    requires SameUse(hs, hs') && forall h :: Held(bs', hs', large, h) <==> Held(bs, hs, large, h)
    ensures HeldSizes(bs', hs', large) == HeldSizes(bs, hs, large)
  {
    hide Held;
  }

  // The smallest class that holds size bytes is c.
  predicate ClassFits(c: nat, size: nat) {
    c < CLASSES && size <= SIZES[c] && forall j | 0 <= j < c :: SIZES[j] < size
  }

  // The class recorded for an allocation of size bytes.
  predicate ServedAs(size: nat, cls: nat) {
    if size > 4096 then cls == LARGE else ClassFits(cls, size)
  }

  // A free slot of the right class is at hand, or the underlying allocator has memory for a
  // large allocation or for a block that holds a slot of that class.
  ghost predicate CanServe(cfg: Config, free: FreeLists, size: nat, raw: Address) {
    if size > 4096 then raw > 0 else exists c: nat :: ClassFits(c, size) && SlotToHave(cfg, free, c, raw)
  }

  predicate SlotToHave(cfg: Config, free: FreeLists, c: nat, raw: Address) {
    c < CLASSES && ((c < |free| && free[c] != []) || (raw > 0 && cfg.blockSize >= SlabBytes(cfg, c)))
  }

  lemma OneClass(c: nat, d: nat, size: nat)
    requires ClassFits(c, size) && ClassFits(d, size)
    ensures c == d
  {
  }

  lemma ServedByClass(cfg: Config, free: FreeLists, size: nat, raw: Address, c: nat)
    requires ClassFits(c, size) && |free| == CLASSES
    ensures CanServe(cfg, free, size, raw) <==> free[c] != [] || (raw > 0 && cfg.blockSize >= SlabBytes(cfg, c))
  {
    hide ClassFits;
    AtMost4096(c, size);
    forall d: nat | ClassFits(d, size) ensures d == c { OneClass(c, d, size); }
    assert ClassFits(c, size) && (SlotToHave(cfg, free, c, raw) <==> free[c] != [] || (raw > 0 && cfg.blockSize >= SlabBytes(cfg, c)));
  }

  lemma AtMost4096(c: nat, size: nat)
    requires ClassFits(c, size)
    ensures size <= 4096 && c < CLASSES
  {
    assert SIZES[c] <= SIZES[9] by { assert c <= 9; }
  }

  class SlabPoolImpl {
    const cfg: Config
    const maxBytes: nat                      // 0 is no limit
    var blocks: Blocks
    var headers: Headers
    var free: FreeLists
    var large: seq<Address>
    var nextRecord: Record
    var bytesInUse: nat
    var bytesPeak: nat
    ghost var kept: set<Record>              // blocks that survived a shrink
    ghost var across: set<Address>           // slots that were live at the last shrink

    ghost function Abs(): Memory
      reads this
    {
      Memory(blocks, headers, kept, across)
    }

    ghost predicate Consistent()
      reads this
    {
      StoreOk(cfg, blocks, headers, nextRecord, free, large)
    }

    ghost predicate Stored()
      reads this
    {
      Consistent() && Lineage(Abs())
    }

    ghost predicate Valid()
      reads this
    {
      && Stored()
      && bytesInUse == Sum(HeldSizes(blocks, headers, large)) && bytesInUse <= bytesPeak
      && (maxBytes > 0 ==> bytesInUse <= maxBytes)
    }

    constructor (config: Config, limit: nat)
      ensures Valid() && cfg == config && maxBytes == limit && blocks == map[] && large == [] && bytesInUse == 0
      ensures Exact(blocks, headers) && kept == {} && across == {}
    {
      cfg, maxBytes := config, limit;
      blocks, headers, large, nextRecord := map[], map[], [], 1;
      free := seq(CLASSES, _ => []);
      bytesInUse, bytesPeak := 0, 0;
      kept, across := {}, {};
    }

    // Hands out the first slot of a new block and lists the others as free.
    method Carve(c: nat, size: nat, raw: Address) returns (h: Address)
      requires Stored() && c < CLASSES && 0 < size <= SIZES[c] && free[c] == []
      requires raw > 0 ==> Fresh(cfg, blocks, headers, large, raw, cfg.blockSize)
      modifies this`blocks, this`headers, this`free, this`nextRecord
      ensures Stored()
      ensures h == 0 <==> cfg.blockSize < SlabBytes(cfg, c) || raw == 0
      ensures h == 0 ==> unchanged(this)
      ensures h != 0 ==> Allocated(old(blocks), old(headers), old(large), blocks, headers, large, h, size)
      ensures h != 0 ==> h in headers && headers[h].cls == c
    {
      hide BlocksOk, HeadersOk, CountsOk, LargeOk, FreeOk, SurplusKept, Exact, Fresh, Gained, SlotsOf, Works, Lineage, Carved;
      var slabSize := SlabBytes(cfg, c);
      var count := cfg.blockSize / slabSize;
      BlockCount(cfg.blockSize, slabSize);
      if count == 0 || raw == 0 { return 0; }
      var b := Block(c, raw, slabSize, count, 1);
      var r := nextRecord;
      var hs, list := Populate(b, r, size);
      NewStore(cfg, blocks, headers, hs, r, free, large, b, size, list);
      NewGains(cfg, blocks, headers, hs, r, large, b, size);
      BlockWorks(cfg, blocks, headers, hs, r, large, b, size);
      WorksLineage(Abs(), Memory(blocks[r := b], hs, kept, across));
      blocks, headers, free, nextRecord := blocks[r := b], hs, free[c := list], r + 1;
      h := raw;
    }

    method AllocFromSlab(c: nat, size: nat, raw: Address) returns (ptr: Address)
      requires Stored() && c < CLASSES && 0 < size <= SIZES[c]
      requires raw > 0 ==> Fresh(cfg, blocks, headers, large, raw, cfg.blockSize)
      modifies this`blocks, this`headers, this`free, this`nextRecord
      ensures Stored()
      ensures old(free[c]) != [] ==> ptr - HEADER in old(headers) && ptr - HEADER == old(free[c])[|old(free[c])| - 1]
      ensures old(free[c]) != [] ==> (old(headers)[ptr - HEADER].owner in old(blocks) <==> ptr - HEADER !in across)
      ensures ptr == 0 <==> old(free[c]) == [] && (cfg.blockSize < SlabBytes(cfg, c) || raw == 0)
      ensures ptr == 0 ==> unchanged(this)
      ensures ptr != 0 ==> ptr >= HEADER && ptr - HEADER in headers && headers[ptr - HEADER].cls == c
      ensures ptr != 0 ==> Allocated(old(blocks), old(headers), old(large), blocks, headers, large, ptr - HEADER, size)
    {
      hide BlocksOk, HeadersOk, CountsOk, LargeOk, FreeOk, SurplusKept, Exact, Fresh, Gained, SlotsOf, SameShape, Works, Lineage;
      if free[c] != [] {
        var h := free[c][|free[c]| - 1];
        ghost var r := TakeStore(cfg, blocks, headers, nextRecord, free, large, c, size);
        ghost var was := blocks;
        ShapeKeys(was, CountUp(was, headers[h].owner));
        TakeGains(was, CountUp(was, headers[h].owner), headers, large, r, h, c, size);
        OwnerExists(Abs(), nextRecord, r, h);
        SlotWorks(was, headers, CountUp(was, headers[h].owner), Marked(headers, h, c, size), nextRecord, h);
        WorksLineage(Abs(), Memory(CountUp(was, headers[h].owner), Marked(headers, h, c, size), kept, across));
        free := free[c := free[c][..|free[c]| - 1]];
        // The pool writes through the owner pointer; the record may be one that Shrink left behind.
        blocks := CountUp(blocks, headers[h].owner);
        headers := Marked(headers, h, c, size);
        return h + HEADER;
      }
      var h := Carve(c, size, raw);
      return if h == 0 then 0 else h + HEADER;
    }

    method FreeToSlab(h: Address)
      requires Stored() && Slotted(blocks, h) && Live(headers, h)
      modifies this`blocks, this`headers, this`free
      ensures Stored()
      ensures Dropped(old(blocks), old(headers), old(large), blocks, headers, large, h)
      ensures Works(old(blocks), old(headers), blocks, headers)
      ensures var c := old(headers)[h].cls; c < |old(free)| && free == old(free)[c := old(free)[c] + [h]]
      ensures old(headers)[h].owner in old(blocks) <==> h !in across
      ensures old(Exact(blocks, headers)) ==> (Exact(blocks, headers) <==> h !in across)
    {
      hide BlocksOk, CountsOk, LargeOk, FreeOk, SurplusKept, Exact, Dropped, SlotsOf, SameShape, CountDown, Works, Lineage;
      ghost var r :| r in blocks && h in SlotsOf(blocks[r]);
      assert SlotOk(blocks, headers, nextRecord, r, h);
      GiveStore(cfg, blocks, headers, nextRecord, free, large, r, h);
      ghost var was := blocks;
      GiveDrops(was, CountDown(was, headers[h].owner), headers, large, r, h);
      OwnerExists(Abs(), nextRecord, r, h);
      SlotWorks(was, headers, CountDown(was, headers[h].owner), Unmarked(headers, h), nextRecord, h);
      WorksLineage(Abs(), Memory(CountDown(was, headers[h].owner), Unmarked(headers, h), kept, across));
      var c := headers[h].cls;
      // The guard used_count > 0 never fails for a record that still exists.
      assert headers[h].owner in blocks ==> blocks[headers[h].owner].used > 0;
      blocks := CountDown(blocks, headers[h].owner);
      headers := Unmarked(headers, h);
      free := free[c := free[c] + [h]];
    }

    method AllocLarge(size: nat, raw: Address) returns (ptr: Address)
      requires Stored() && size > 0
      requires raw > 0 ==> Fresh(cfg, blocks, headers, large, raw, Footprint(cfg, size))
      modifies this`headers, this`large
      ensures Stored()
      ensures ptr == 0 <==> raw == 0
      ensures ptr == 0 ==> unchanged(this)
      ensures ptr != 0 ==> ptr == raw + HEADER && raw in headers && headers[raw].cls == LARGE
      ensures ptr != 0 ==> Allocated(old(blocks), old(headers), old(large), blocks, headers, large, ptr - HEADER, size)
    {
      hide BlocksOk, HeadersOk, CountsOk, FreesOk, SurplusKept, Exact, SlotsOf, LargeOk, Gained, Fresh, Works, Lineage;
      if raw == 0 { return 0; }
      AddLarge(cfg, blocks, headers, nextRecord, free, large, raw, size);
      LargeGains(cfg, blocks, headers, nextRecord, large, raw, size);
      LargeApart(cfg, blocks, headers, nextRecord, large, raw, Footprint(cfg, size));
      LargeWorks(blocks, headers, headers[raw := Header(true, LARGE, size, 0)], nextRecord, raw);
      WorksLineage(Abs(), Memory(blocks, headers[raw := Header(true, LARGE, size, 0)], kept, across));
      headers := headers[raw := Header(true, LARGE, size, 0)];
      large := large + [raw];
      return raw + HEADER;
    }

    // Removes raw from the list of large allocations: the last entry takes its place.
    method Unlist(raw: Address) returns (rest: seq<Address>)
      requires Distinct(large)
      ensures Distinct(rest) && forall g :: g in rest <==> g in large && g != raw
      ensures raw in large ==> |rest| == |large| - 1
    {
      rest := large;
      var i := 0;
      while i < |large|
        invariant 0 <= i <= |large| && rest == large
        invariant forall k | 0 <= k < i :: large[k] != raw
      {
        if large[i] == raw {
          rest := large[i := large[|large| - 1]][..|large| - 1];
          SwapRemove(large, i);
          return;
        }
        i := i + 1;
      }
    }

    method FreeLarge(h: Address)
      requires Stored() && h in large
      modifies this`headers, this`large
      ensures Stored()
      ensures Dropped(old(blocks), old(headers), old(large), blocks, headers, large, h)
      ensures Works(old(blocks), old(headers), blocks, headers)
      ensures old(Exact(blocks, headers)) <==> Exact(blocks, headers)
    {
      hide BlocksOk, HeadersOk, CountsOk, FreesOk, SurplusKept, Exact, SlotsOf, Dropped, Works, Lineage;
      var rest := Unlist(h);
      RemoveLarge(cfg, blocks, headers, nextRecord, free, large, rest, h);
      LargeDrops(cfg, blocks, headers, nextRecord, large, rest, h);
      forall r | r in blocks ensures h !in SlotsOf(blocks[r]) { LargeIsNoSlot(cfg, blocks, nextRecord, headers, large, r, h); }
      LargeWorks(blocks, headers, headers - {h}, nextRecord, h);
      WorksLineage(Abs(), Memory(blocks, headers - {h}, kept, across));
      large := rest;
      headers := headers - {h};
    }

    // The budget test, then the dispatch by size class; raw is what the underlying allocator
    // answers, if asked.
    method Alloc(size: nat, raw: Address) returns (ptr: Address)
      requires Valid()
      requires raw > 0 ==> Fresh(cfg, blocks, headers, large, raw, if size <= 4096 then cfg.blockSize else Footprint(cfg, size))
      modifies this
      ensures Valid() && kept == old(kept) && across == old(across)
      ensures ptr == 0 ==> unchanged(this)
      ensures ptr == 0 <==> size == 0 || (maxBytes > 0 && old(bytesInUse) + size > maxBytes) || !CanServe(cfg, old(free), size, raw)
      ensures ptr != 0 ==> ptr - HEADER in headers && ServedAs(size, headers[ptr - HEADER].cls)
      ensures ptr != 0 ==> ptr >= HEADER && bytesInUse == old(bytesInUse) + size
      ensures size <= 4096 ==> large == old(large)
      ensures ptr != 0 ==> bytesPeak == if bytesInUse > old(bytesPeak) then bytesInUse else old(bytesPeak)
      ensures ptr != 0 ==> Allocated(old(blocks), old(headers), old(large), blocks, headers, large, ptr - HEADER, size)
      ensures Follows(old(Abs()), Abs())
    {
      hide Fresh, Lineage, Works, Gained, HeldSizes, Sum, Exact, BlocksOk, HeadersOk, CountsOk, LargeOk, FreeOk, SlotsOf;
      UnchangedFollows(cfg, Abs(), nextRecord, free, large);
      if size == 0 { return 0; }
      if maxBytes > 0 && bytesInUse + size > maxBytes { return 0; }
      var c := SizeClassIndex(size);
      if c < CLASSES {
        ServedByClass(cfg, free, size, raw, c);
        ptr := AllocFromSlab(c, size, raw);
      } else {
        ptr := AllocLarge(size, raw);
      }
      if ptr != 0 {
        GainedSizes(old(blocks), old(headers), old(large), blocks, headers, large, ptr - HEADER, size);
        bytesInUse := bytesInUse + size;
        if bytesInUse > bytesPeak { bytesPeak := bytesInUse; }
      }
    }

    // Frees what the client holds; a pointer to an idle slot, or NULL, is ignored. The
    // subtraction does not saturate.
    method Free(ptr: Address)
      requires Valid()
      requires ptr != 0 ==> ptr >= HEADER && (Slotted(blocks, ptr - HEADER) || ptr - HEADER in large)
      modifies this
      ensures Valid() && kept == old(kept) && across == old(across)
      ensures ptr == 0 || !old(Held(blocks, headers, large, ptr - HEADER)) ==> unchanged(this)
      ensures ptr != 0 && old(Held(blocks, headers, large, ptr - HEADER)) ==>
        Dropped(old(blocks), old(headers), old(large), blocks, headers, large, ptr - HEADER)
      ensures ptr != 0 && old(Held(blocks, headers, large, ptr - HEADER)) ==>
        old(headers)[ptr - HEADER].size <= old(bytesInUse) && bytesInUse == old(bytesInUse) - old(headers)[ptr - HEADER].size
      ensures bytesPeak == old(bytesPeak) && Follows(old(Abs()), Abs())
    {
      hide StoreOk, Lineage, Works, Dropped, SlotsOf, Exact, HeldSizes, Sum, Slotted;
      UnchangedFollows(cfg, Abs(), nextRecord, free, large);
      if ptr == 0 { return; }
      var h := ptr - HEADER;
      if h !in headers || !headers[h].live { return; }
      var size := headers[h].size;
      DispatchIsRight(cfg, blocks, headers, nextRecord, free, large, h);
      if headers[h].cls == LARGE { FreeLarge(h); } else { FreeToSlab(h); }
      DroppedSizes(old(blocks), old(headers), old(large), blocks, headers, large, h);
      bytesInUse := if bytesInUse > size then bytesInUse - size else 0;
    }

    // Lists the idle slots of a block and makes them name its record.
    method RebuildFreeList(b: Block, r: Record, hs: Headers, list: seq<Address>) returns (hs': Headers, list': seq<Address>)
      requires b.slabSize > 0 && SlotsOf(b) <= hs.Keys && Distinct(list) && forall h | h in list :: h !in SlotsOf(b)
      ensures BlockRebuilt(hs, hs', r, b, list, list')
    {
      hide Distinct;
      hs', list' := hs, list;
      var i := 0;
      while i < b.count
        invariant 0 <= i <= b.count && SameUse(hs, hs')
        invariant forall k: nat | k < i :: Slot(b, k) in hs && hs'[Slot(b, k)].owner == if hs[Slot(b, k)].live then hs[Slot(b, k)].owner else r
        invariant forall h | h in hs && !Among(b, i, h) :: hs'[h] == hs[h]
        invariant Distinct(list') && forall h :: h in list' <==> h in list || (Among(b, i, h) && !Live(hs, h))
      {
        var slot := Slot(b, i);
        assert slot in SlotsOf(b);
        NextAmong(b, i);
        SlotsDiffer(b, i);
        if !hs'[slot].live {
          hs' := hs'[slot := hs'[slot].(owner := r)];
          StillDistinct(list', slot);
          list' := list' + [slot];
        }
        i := i + 1;
      }
      AllAmong(b);
    }

    // Copies the used blocks of class c; the others go back to the underlying allocator.
    method KeepUsed(c: nat) returns (kept: Blocks, next: Record, ghost origin: map<Record, Record>, ghost moved: map<Record, Record>)
      ensures Keeping(blocks, c, {}, kept, origin, moved, nextRecord, next)
    {
      kept, next, origin, moved := map[], nextRecord, map[], map[];
      var todo := set r | r in blocks && blocks[r].cls == c;
      while todo != {}
        invariant forall r | r in todo :: r in blocks && blocks[r].cls == c
        invariant Keeping(blocks, c, todo, kept, origin, moved, nextRecord, next)
      {
        var r := Choose(todo);
        if blocks[r].used > 0 {
          KeepOne(blocks, c, todo, kept, origin, moved, nextRecord, next, r);
          kept, origin, moved := kept[next := blocks[r]], origin[next := r], moved[r := next];
          next := next + 1;
        }
        todo := todo - {r};
      }
    }

    // Rebuilds the free list of the class whose blocks are in renewed.
    method RebuildClass(bs: Blocks, renewed: set<Record>, ghost next: Record) returns (hs: Headers, list: seq<Address>)
      requires BlocksOk(cfg, bs, next) && renewed <= bs.Keys && forall r | r in renewed :: SlotsOf(bs[r]) <= headers.Keys
      ensures Rebuilding(bs, headers, hs, renewed, list)
    {
      hide SlotsOf, BlockOk, Adopted, SlottedIn, BlockRebuilt, SameUse;
      hs, list := headers, [];
      RebuildStart(bs, headers);
      var todo := renewed;
      ghost var done: set<Record> := {};
      while todo != {}
        invariant todo <= renewed && done == renewed - todo
        invariant Rebuilding(bs, headers, hs, done, list)
      {
        var r := Choose(todo);
        RebuildReady(cfg, bs, next, headers, hs, done, list, r);
        var hs', list' := RebuildFreeList(bs[r], r, hs, list);
        RebuildNext(cfg, bs, next, headers, hs, hs', done, r, list, list');
        hs, list := hs', list';
        todo, done := todo - {r}, done + {r};
      }
      assert done == renewed;
    }

    method ShrinkClass(c: nat) returns (ghost from: map<Record, Record>)
      requires Consistent() && c < CLASSES
      modifies this`blocks, this`headers, this`free, this`nextRecord
      ensures Consistent()
      ensures ClassShrunk(old(blocks), old(headers), blocks, headers, from, c)
      ensures old(Exact(blocks, headers)) ==> Exact(blocks, headers)
    {
      hide BlocksOk, HeadersOk, CountsOk, LargeOk, FreeOk, SlotsOf, Exact, Keeping, Renamed, ClassOnly, Rebuilding, ClassShrunk;
      var kept, next;
      ghost var origin, moved;
      kept, next, origin, moved := KeepUsed(c);
      var bs := Swapped(blocks, c, kept);
      from := Back(blocks, c, origin);
      SwapRenames(cfg, blocks, c, kept, origin, moved, nextRecord, next);
      SwapReady(cfg, blocks, headers, nextRecord, c, kept, origin, moved, next);
      RenamedBlocks(cfg, blocks, bs, from, nextRecord, next);
      var hs, list := RebuildClass(bs, kept.Keys, next);
      RebuildEnd(cfg, blocks, bs, from, headers, hs, nextRecord, next, c, kept.Keys, list);
      ShrinkStore(cfg, blocks, bs, headers, hs, from, nextRecord, next, free, large, c, list);
      ShrinkFacts(cfg, blocks, headers, hs, nextRecord, c, kept, origin, moved, next);
      blocks, headers, free, nextRecord := bs, hs, free[c := list], next;
    }

    // Gives unused blocks back. Every allocation stays where it is. A block goes exactly when it
    // has no live slot and survived no earlier shrink, so all idle blocks go exactly when every
    // block that survived one still has a live slot. Afterwards the slots that name their
    // block's record are exactly the idle ones.
    method Shrink() returns (ghost from: map<Record, Record>)
      requires Valid()
      modifies this
      ensures Valid() && large == old(large) && bytesInUse == old(bytesInUse) && bytesPeak == old(bytesPeak)
      ensures Shrinks(old(blocks), old(headers), blocks, headers, from) && from.Keys == blocks.Keys
      ensures kept == blocks.Keys && across == AllLive(blocks, headers) && Follows(old(Abs()), Abs())
      ensures forall h :: Held(blocks, headers, large, h) <==> old(Held(blocks, headers, large, h))
      ensures forall r | r in old(blocks) :: r !in from.Values <==> r !in old(kept) && old(LiveSlots(headers, blocks[r])) == {}
      ensures (forall r | r in old(blocks) && old(LiveSlots(headers, blocks[r])) == {} :: r !in from.Values)
         <==> (forall r | r in old(kept) :: old(LiveSlots(headers, blocks[r])) != {})
      ensures old(Exact(blocks, headers)) ==> Exact(blocks, headers)
    {
      hide StoreOk, Exact, ClassShrunk, ShrunkUpTo, LiveSlots, Held, Lineage, Shrinks, Descends, SameUse, Settled, HeldSizes, Sum, Works;
      ghost var m := Abs();
      from := map r | r in blocks :: r;
      ShrunkStart(blocks, headers, from);
      for c := 0 to CLASSES
        invariant Consistent() && large == old(large) && bytesInUse == old(bytesInUse) && bytesPeak == old(bytesPeak)
        invariant ShrunkUpTo(m.bs, m.hs, blocks, headers, from, c)
        invariant Exact(m.bs, m.hs) ==> Exact(blocks, headers)
      {
        ghost var bs1, hs1 := blocks, headers;
        ghost var step := ShrinkClass(c);
        ShrunkNext(m.bs, m.hs, bs1, hs1, from, blocks, headers, step, c);
        from := Composed(blocks, from, step);
      }
      ShrunkAll(cfg, m.bs, m.hs, old(nextRecord), old(free), large, blocks, headers, nextRecord, free, from);
      ShrunkSizes(m.bs, m.hs, large, blocks, headers);
      kept, across := blocks.Keys, AllLive(blocks, headers);
      ShrinkLineage(m, Abs(), from);
      ReleasedExactly(m, from);
    }

    // The headers and the free slots of a new block.
    method Populate(b: Block, r: Record, size: nat) returns (hs: Headers, list: seq<Address>)
      requires BlockOk(cfg, b)
      ensures Carved(headers, hs, b, r, size) && b.base in hs && hs[b.base].cls == b.cls
      ensures Distinct(list) && forall h :: h in list <==> h in SlotsOf(b) && h != b.base
    {
      hs, list := headers, [];
      var i := 1;
      SlotZero(b);
      while i < b.count
        invariant 1 <= i <= b.count && |list| == i - 1
        invariant forall k | 0 <= k < |list| :: list[k] == Slot(b, k + 1)
        invariant forall g | g in headers && g !in SlotsOf(b) :: g in hs && hs[g] == headers[g]
        invariant forall k: nat | 1 <= k < i :: Slot(b, k) in hs && hs[Slot(b, k)] == Header(false, 0, 0, r)
      {
        SlotsDiffer(b, i);
        hs := hs[Slot(b, i) := Header(false, 0, 0, r)];
        list := list + [Slot(b, i)];
        i := i + 1;
      }
      SlotsDiffer(b, 0);
      hs := hs[b.base := Header(true, b.cls, size, r)];
      ListedSlots(b, list);
    }
  }

  // ---------------------------------------------------------------------------------------
  // Shrink

  // kept holds the used blocks of class c outside todo under new records.
  ghost predicate Keeping(bs: Blocks, c: nat, todo: set<Record>, kept: Blocks, origin: map<Record, Record>,
                          moved: map<Record, Record>, next: Record, next': Record)
  {
    && next <= next' && origin.Keys == kept.Keys
    && (forall k | k in kept :: next <= k < next' && origin[k] in moved && moved[origin[k]] == k)
    && (forall k | k in kept :: origin[k] in bs && kept[k] == bs[origin[k]])
    && (forall r | r in moved :: moved[r] in kept && origin[moved[r]] == r)
    && (forall r :: r in moved <==> r in bs && bs[r].cls == c && bs[r].used > 0 && r !in todo)
  }

  lemma KeepOne(bs: Blocks, c: nat, todo: set<Record>, kept: Blocks, origin: map<Record, Record>,
                moved: map<Record, Record>, next: Record, next': Record, r: Record)
    requires Keeping(bs, c, todo, kept, origin, moved, next, next') && r in todo && r in bs && bs[r].cls == c && bs[r].used > 0
    ensures Keeping(bs, c, todo - {r}, kept[next' := bs[r]], origin[next' := r], moved[r := next'], next, next' + 1)
  {
  }

  // The blocks after the swap of the deques.
  function Swapped(bs: Blocks, c: nat, kept: Blocks): Blocks {
    (map r | r in bs && bs[r].cls != c :: bs[r]) + kept
  }

  ghost function Back(bs: Blocks, c: nat, origin: map<Record, Record>): map<Record, Record> {
    (map r | r in bs && bs[r].cls != c :: r) + origin
  }

  lemma SwapLookup(bs: Blocks, c: nat, kept: Blocks, origin: map<Record, Record>)
    requires origin.Keys == kept.Keys
    ensures var bs' := Swapped(bs, c, kept); var from := Back(bs, c, origin);
      && from.Keys == bs'.Keys
      && (forall r :: r in bs' <==> (r in bs && bs[r].cls != c) || r in kept)
      && (forall r | r in kept :: bs'[r] == kept[r] && from[r] == origin[r])
      && (forall r | r in bs' && r !in kept :: bs'[r] == bs[r] && from[r] == r)
  {
  }

  lemma SwapRenames(cfg: Config, bs: Blocks, c: nat, kept: Blocks, origin: map<Record, Record>,
                    moved: map<Record, Record>, next: Record, next': Record)
    requires BlocksOk(cfg, bs, next) && Keeping(bs, c, {}, kept, origin, moved, next, next')
    ensures var bs' := Swapped(bs, c, kept); var from := Back(bs, c, origin);
      Renamed(bs, bs', from, next) && ClassOnly(bs, bs', from, c) && forall r | r in bs' :: r < next'
  {
    hide BlockOk, Swapped, Back;
    SwapLookup(bs, c, kept, origin);
  }

  // What stays is what is in use.
  lemma SwapKeepsUsed(cfg: Config, bs: Blocks, c: nat, kept: Blocks, origin: map<Record, Record>,
                      moved: map<Record, Record>, next: Record, next': Record, r: Record)
    requires BlocksOk(cfg, bs, next) && Keeping(bs, c, {}, kept, origin, moved, next, next') && r in bs && bs[r].cls == c
    ensures r in Back(bs, c, origin).Values <==> bs[r].used > 0
  {
    hide BlockOk, Swapped, Back;
    SwapLookup(bs, c, kept, origin);
    var from := Back(bs, c, origin);
    if bs[r].used > 0 { assert from[moved[r]] == r; }
  }

  // The blocks in `done` have been adopted; list names their idle slots.
  ghost predicate Rebuilding(bs': Blocks, hs: Headers, hs': Headers, done: set<Record>, list: seq<Address>) {
    && SameUse(hs, hs') && Distinct(list) && done <= bs'.Keys
    && (forall r | r in done :: Adopted(hs, hs', r, true, bs'[r]))
    && (forall h | h in hs && !SlottedIn(bs', done, h) :: hs'[h] == hs[h])
    && (forall h :: h in list <==> !Live(hs, h) && SlottedIn(bs', done, h))
  }

  ghost predicate SlottedIn(bs: Blocks, rs: set<Record>, h: Address) {
    exists r :: r in rs && r in bs && h in SlotsOf(bs[r])
  }

  // One block's slots have been visited.
  ghost predicate BlockRebuilt(hs: Headers, hs': Headers, r: Record, b: Block, list: seq<Address>, list': seq<Address>) {
    && SameUse(hs, hs') && Adopted(hs, hs', r, true, b)
    && (forall h | h in hs && h !in SlotsOf(b) :: hs'[h] == hs[h])
    && Distinct(list') && (forall h :: h in list' <==> h in list || (h in SlotsOf(b) && !Live(hs, h)))
  }

  lemma RebuildNext(cfg: Config, bs: Blocks, next: Record, hs: Headers, hs1: Headers, hs2: Headers, done: set<Record>, r: Record,
                    list: seq<Address>, list': seq<Address>)
    requires BlocksOk(cfg, bs, next) && r in bs && r !in done
    requires Rebuilding(bs, hs, hs1, done, list) && BlockRebuilt(hs1, hs2, r, bs[r], list, list')
    ensures Rebuilding(bs, hs, hs2, done + {r}, list')
  {
    hide SlotsOf, BlocksOk, Distinct, SlottedIn;
    forall h ensures SlottedIn(bs, done + {r}, h) <==> SlottedIn(bs, done, h) || h in SlotsOf(bs[r]) {
      OneMoreBlock(bs, done, r, h);
    }
    forall q | q in done ensures Adopted(hs, hs2, q, true, bs[q]) {
      AdoptedKept(cfg, bs, next, hs, hs1, hs2, q, r);
    }
    forall h | h in SlotsOf(bs[r]) ensures h in hs1 && (h in hs ==> hs1[h] == hs[h]) {
      NotInDone(cfg, bs, next, done, r, h);
    }
  }

  lemma OneMoreBlock(bs: Blocks, done: set<Record>, r: Record, h: Address)
    requires r in bs
    ensures SlottedIn(bs, done + {r}, h) <==> SlottedIn(bs, done, h) || h in SlotsOf(bs[r])
  {
    hide SlotsOf;
    if SlottedIn(bs, done, h) {
      var q :| q in done && q in bs && h in SlotsOf(bs[q]);
      assert q in done + {r};
    }
    if h in SlotsOf(bs[r]) { assert r in done + {r}; }
  }

  lemma NotInDone(cfg: Config, bs: Blocks, next: Record, done: set<Record>, r: Record, h: Address)
    requires BlocksOk(cfg, bs, next) && r in bs && r !in done && h in SlotsOf(bs[r])
    ensures !SlottedIn(bs, done, h)
  {
    hide SlotsOf, BlocksOk;
    forall q | q in done && q in bs && h in SlotsOf(bs[q]) ensures false { UniqueBlock(cfg, bs, next, r, q, h); }
  }

  lemma AdoptedKept(cfg: Config, bs: Blocks, next: Record, hs: Headers, hs1: Headers, hs2: Headers, q: Record, r: Record)
    requires BlocksOk(cfg, bs, next) && q in bs && r in bs && q != r && Adopted(hs, hs1, q, true, bs[q])
    requires forall h | h in hs1 && h !in SlotsOf(bs[r]) :: h in hs2 && hs2[h] == hs1[h]
    ensures Adopted(hs, hs2, q, true, bs[q])
  {
    hide SlotsOf, BlocksOk;
    forall h | h in SlotsOf(bs[q]) ensures h !in SlotsOf(bs[r]) {
      if h in SlotsOf(bs[r]) { UniqueBlock(cfg, bs, next, q, r, h); }
    }
  }

  lemma RebuildStart(bs: Blocks, hs: Headers)
    ensures Rebuilding(bs, hs, hs, {}, [])
  {
    hide SlotsOf;
  }

  lemma RebuildEnd(cfg: Config, bs: Blocks, bs': Blocks, from: map<Record, Record>, hs: Headers, hs': Headers, next: Record, next': Record,
                   c: nat, done: set<Record>, list: seq<Address>)
    requires HeadersOk(bs, hs, next) && BlocksOk(cfg, bs', next') && Renamed(bs, bs', from, next) && Rebuilding(bs', hs, hs', done, list)
    requires forall r | r in bs' :: (r in done <==> r != from[r]) && (r in done <==> bs'[r].cls == c)
    ensures Rehomed(bs', from, hs, hs') && FreeOk(bs', hs', c, list)
  {
    hide SlotsOf, HeadersOk, BlocksOk, Distinct;
    forall r | r in bs' ensures Adopted(hs, hs', r, r != from[r], bs'[r]) {
      if r !in done {
        SlotsKnown(bs, hs, next, from[r]);
        forall h | h in SlotsOf(bs'[r]) ensures hs'[h] == hs[h] { NotInDone(cfg, bs', next', done, r, h); }
      }
    }
    forall h ensures h in list <==> Idle(bs', hs', c, h) {
      assert Live(hs', h) <==> Live(hs, h);
    }
  }

  lemma RebuildReady(cfg: Config, bs: Blocks, next: Record, hs: Headers, hs': Headers, done: set<Record>, list: seq<Address>, r: Record)
    requires BlocksOk(cfg, bs, next) && r in bs && r !in done && Rebuilding(bs, hs, hs', done, list) && SlotsOf(bs[r]) <= hs.Keys
    ensures bs[r].slabSize > 0 && SlotsOf(bs[r]) <= hs'.Keys && Distinct(list) && forall h | h in list :: h !in SlotsOf(bs[r])
  {
    hide SlotsOf, Distinct, SlottedIn, Adopted;
    assert BlockOk(cfg, bs[r]);
    forall h | h in SlotsOf(bs[r]) ensures h !in list { NotInDone(cfg, bs, next, done, r, h); }
  }

  lemma SwapReady(cfg: Config, bs: Blocks, hs: Headers, next: Record, c: nat, kept: Blocks, origin: map<Record, Record>,
                  moved: map<Record, Record>, next': Record)
    requires BlocksOk(cfg, bs, next) && HeadersOk(bs, hs, next) && Keeping(bs, c, {}, kept, origin, moved, next, next')
    ensures var bs' := Swapped(bs, c, kept); var from := Back(bs, c, origin);
      && next <= next' && kept.Keys <= bs'.Keys && from.Keys == bs'.Keys
      && (forall r | r in kept :: SlotsOf(bs'[r]) <= hs.Keys)
      && (forall r | r in bs' :: (r in kept.Keys <==> r != from[r]) && (r in kept.Keys <==> bs'[r].cls == c))
  {
    hide SlotsOf, BlockOk, HeadersOk, Swapped, Back;
    SwapLookup(bs, c, kept, origin);
    forall r | r in kept ensures SlotsOf(kept[r]) <= hs.Keys { SlotsKnown(bs, hs, next, origin[r]); }
  }

  // The effect of a shrink on class c: the unused blocks are gone, the others stay with all
  // their allocations, and only their idle slots name the new records.
  ghost predicate ClassShrunk(bs: Blocks, hs: Headers, bs': Blocks, hs': Headers, from: map<Record, Record>, c: nat) {
    && Descends(bs, bs', from) && SameUse(hs, hs')
    && (forall r | r in bs && bs[r].cls == c :: r in from.Values <==> bs[r].used > 0)
    && (forall r | r in bs && bs[r].cls != c :: r in bs' && from[r] == r)
    && (forall r | r in bs' && bs'[r].cls == c :: Settled(hs', r, bs'[r]))
    && (forall r | r in bs' && bs'[r].cls != c :: r == from[r] && forall h | h in SlotsOf(bs'[r]) :: h in hs && h in hs' && hs'[h] == hs[h])
  }

  lemma ShrinkFacts(cfg: Config, bs: Blocks, hs: Headers, hs': Headers, next: Record, c: nat, kept: Blocks,
                    origin: map<Record, Record>, moved: map<Record, Record>, next': Record)
    requires BlocksOk(cfg, bs, next) && HeadersOk(bs, hs, next) && Keeping(bs, c, {}, kept, origin, moved, next, next')
    requires var bs' := Swapped(bs, c, kept); var from := Back(bs, c, origin);
      Renamed(bs, bs', from, next) && ClassOnly(bs, bs', from, c) && Rehomed(bs', from, hs, hs')
    ensures ClassShrunk(bs, hs, Swapped(bs, c, kept), hs', Back(bs, c, origin), c)
  {
    hide SlotsOf, BlocksOk, HeadersOk, Swapped, Back, Keeping;
    var bs', from := Swapped(bs, c, kept), Back(bs, c, origin);
    forall r | r in bs && bs[r].cls == c ensures r in from.Values <==> bs[r].used > 0 {
      SwapKeepsUsed(cfg, bs, c, kept, origin, moved, next, next', r);
    }
    forall r | r in bs' && bs'[r].cls == c ensures Settled(hs', r, bs'[r]) {
      assert Adopted(hs, hs', r, true, bs'[r]);
      forall h | h in SlotsOf(bs'[r]) ensures hs[h].owner < next { SlotFacts(bs, hs, next, from[r], h); }
    }
    forall r, h | r in bs' && bs'[r].cls != c && h in SlotsOf(bs'[r]) ensures h in hs && h in hs' && hs'[h] == hs[h] {
      assert from[r] == r;
      assert Adopted(hs, hs', r, false, bs'[r]);
    }
  }

  // Classes below c have been shrunk.
  ghost predicate ShrunkUpTo(bs: Blocks, hs: Headers, bs': Blocks, hs': Headers, from: map<Record, Record>, c: nat) {
    && Descends(bs, bs', from) && SameUse(hs, hs')
    && (forall r | r in bs && bs[r].cls < c :: r in from.Values <==> bs[r].used > 0)
    && (forall r | r in bs && bs[r].cls >= c :: r in bs' && from[r] == r)
    && (forall r | r in bs' && bs'[r].cls < c :: Settled(hs', r, bs'[r]))
  }

  ghost function Composed(bs: Blocks, from: map<Record, Record>, step: map<Record, Record>): map<Record, Record> {
    map r | r in bs && r in step && step[r] in from :: from[step[r]]
  }

  lemma ShrunkStart(bs: Blocks, hs: Headers, from: map<Record, Record>)
    requires from == map r | r in bs :: r
    ensures ShrunkUpTo(bs, hs, bs, hs, from, 0)
  {
  }

  lemma ShrunkNext(bs: Blocks, hs: Headers, bs1: Blocks, hs1: Headers, from: map<Record, Record>,
                   bs2: Blocks, hs2: Headers, step: map<Record, Record>, c: nat)
    requires ShrunkUpTo(bs, hs, bs1, hs1, from, c) && ClassShrunk(bs1, hs1, bs2, hs2, step, c)
    ensures ShrunkUpTo(bs, hs, bs2, hs2, Composed(bs2, from, step), c + 1)
  {
    hide SlotsOf, Descends, Settled, Composed, ClassShrunk;
    var f := Composed(bs2, from, step);
    ComposedDescends(bs, bs1, bs2, from, step, hs1, hs2, c);
    UseComposed(bs1, bs2, step, hs, hs1, hs2, c);
    forall r | r in bs && bs[r].cls < c + 1 ensures r in f.Values <==> bs[r].used > 0 {
      ShrunkValues(bs, hs, bs1, hs1, from, bs2, hs2, step, c, r);
    }
    forall r | r in bs && bs[r].cls >= c + 1 ensures r in bs2 && r in f && f[r] == r {
      ShrunkRest(bs, hs, bs1, hs1, from, bs2, hs2, step, c, r);
    }
    forall r | r in bs2 && bs2[r].cls < c + 1 ensures Settled(hs2, r, bs2[r]) {
      ShrunkSettled(bs, hs, bs1, hs1, from, bs2, hs2, step, c, r);
    }
  }

  lemma ComposedDescends(bs: Blocks, bs1: Blocks, bs2: Blocks, from: map<Record, Record>, step: map<Record, Record>,
                         hs1: Headers, hs2: Headers, c: nat)
    requires Descends(bs, bs1, from) && ClassShrunk(bs1, hs1, bs2, hs2, step, c)
    ensures Descends(bs, bs2, Composed(bs2, from, step)) && Descends(bs1, bs2, step)
  {
    hide SlotsOf, Settled, SameUse;
    var f := Composed(bs2, from, step);
    assert f.Keys == bs2.Keys;
    forall r | r in bs2 ensures f[r] == from[step[r]] && step[r] in bs1 && from[step[r]] in bs { }
  }

  lemma UseComposed(bs1: Blocks, bs2: Blocks, step: map<Record, Record>, hs: Headers, hs1: Headers, hs2: Headers, c: nat)
    requires SameUse(hs, hs1) && ClassShrunk(bs1, hs1, bs2, hs2, step, c)
    ensures SameUse(hs, hs2)
  {
    hide SlotsOf, Settled, Descends;
  }

  lemma ShrunkValues(bs: Blocks, hs: Headers, bs1: Blocks, hs1: Headers, from: map<Record, Record>,
                     bs2: Blocks, hs2: Headers, step: map<Record, Record>, c: nat, r: Record)
    requires ShrunkUpTo(bs, hs, bs1, hs1, from, c) && ClassShrunk(bs1, hs1, bs2, hs2, step, c) && r in bs && bs[r].cls <= c
    ensures r in Composed(bs2, from, step).Values <==> bs[r].used > 0
  {
    hide SlotsOf, Settled, SameUse, Composed;
    ComposedValues(bs, bs1, bs2, from, step, r);
    if bs[r].cls == c {
      assert from[r] == r && bs1[r] == bs[r];
    } else if r in from.Values {
      var k :| k in from && from[k] == r;
      assert step[k] == k;
    }
  }

  lemma ShrunkRest(bs: Blocks, hs: Headers, bs1: Blocks, hs1: Headers, from: map<Record, Record>,
                   bs2: Blocks, hs2: Headers, step: map<Record, Record>, c: nat, r: Record)
    requires ShrunkUpTo(bs, hs, bs1, hs1, from, c) && ClassShrunk(bs1, hs1, bs2, hs2, step, c) && r in bs && bs[r].cls > c
    ensures r in bs2 && r in Composed(bs2, from, step) && Composed(bs2, from, step)[r] == r
  {
    hide SlotsOf, Settled, SameUse;
    assert from[r] == r && bs1[r] == bs[r];
    assert step[r] == r;
  }

  lemma ShrunkSettled(bs: Blocks, hs: Headers, bs1: Blocks, hs1: Headers, from: map<Record, Record>,
                      bs2: Blocks, hs2: Headers, step: map<Record, Record>, c: nat, r: Record)
    requires ShrunkUpTo(bs, hs, bs1, hs1, from, c) && ClassShrunk(bs1, hs1, bs2, hs2, step, c) && r in bs2 && bs2[r].cls <= c
    ensures Settled(hs2, r, bs2[r])
  {
    hide SlotsOf, SameUse;
    if bs2[r].cls != c {
      assert step[r] == r && bs2[r] == bs1[r];
      assert Settled(hs1, r, bs1[r]);
    }
  }

  lemma ComposedValues(bs: Blocks, bs1: Blocks, bs2: Blocks, from: map<Record, Record>, step: map<Record, Record>, r: Record)
    requires Descends(bs, bs1, from) && Descends(bs1, bs2, step)
    ensures r in Composed(bs2, from, step).Values <==> exists k :: k in from && from[k] == r && k in step.Values
  {
    var f := Composed(bs2, from, step);
    if r in f.Values {
      var j :| j in f && f[j] == r;
      assert step[j] in from && from[step[j]] == r;
    }
    if exists k :: k in from && from[k] == r && k in step.Values {
      var k :| k in from && from[k] == r && k in step.Values;
      var j :| j in step && step[j] == k;
      assert f[j] == r;
    }
  }

  lemma ShrunkHeld(cfg: Config, bs: Blocks, hs: Headers, bs': Blocks, hs': Headers, from: map<Record, Record>, large: seq<Address>, h: Address)
    requires CountsOk(bs, hs) && Descends(bs, bs', from) && SameUse(hs, hs')
    requires forall r | r in bs && bs[r].used > 0 :: r in from.Values
    ensures Held(bs', hs', large, h) <==> Held(bs, hs, large, h)
  {
    hide SlotsOf, CountsOk;
    if Live(hs, h) && Slotted(bs, h) {
      var r :| r in bs && h in SlotsOf(bs[r]);
      GivePositive(bs, hs, r, h);
      var k :| k in from && from[k] == r;
      assert k in bs' && h in SlotsOf(bs'[k]);
    }
    if Slotted(bs', h) {
      var k :| k in bs' && h in SlotsOf(bs'[k]);
      assert from[k] in bs && h in SlotsOf(bs[from[k]]);
    }
  }

  lemma ShrunkAll(cfg: Config, bs: Blocks, hs: Headers, next: Record, free: FreeLists, large: seq<Address>,
                  bs': Blocks, hs': Headers, next': Record, free': FreeLists, from: map<Record, Record>)
    requires StoreOk(cfg, bs, hs, next, free, large) && StoreOk(cfg, bs', hs', next', free', large)
    requires ShrunkUpTo(bs, hs, bs', hs', from, CLASSES)
    ensures Shrinks(bs, hs, bs', hs', from) && SameUse(hs, hs') && from.Keys == bs'.Keys
    ensures forall r | r in bs :: r in from.Values <==> bs[r].used > 0
    ensures forall h :: Held(bs', hs', large, h) <==> Held(bs, hs, large, h)
  {
    hide HeadersOk, CountsOk, FreesOk, LargeOk, SlotsOf, Held, Settled, Descends, SameUse, Shrinks;
    DescendsKeys(bs, bs', from);
    assert forall r | r in bs :: BlockOk(cfg, bs[r]);
    assert forall r | r in bs' :: BlockOk(cfg, bs'[r]);
    forall h ensures Held(bs', hs', large, h) <==> Held(bs, hs, large, h) { ShrunkHeld(cfg, bs, hs, bs', hs', from, large, h); }
    ShrinksFrom(cfg, bs, hs, bs', hs', next', from);
  }

  lemma DescendsKeys(bs: Blocks, bs': Blocks, from: map<Record, Record>)
    requires Descends(bs, bs', from)
    ensures from.Keys == bs'.Keys
  {
  }

  lemma ReleasedExactly(m: Memory, from: map<Record, Record>)
    requires Lineage(m) && forall r | r in m.bs :: r in from.Values <==> m.bs[r].used > 0
    ensures forall r | r in m.bs :: r !in from.Values <==> r !in m.kept && LiveSlots(m.hs, m.bs[r]) == {}
    ensures (forall r | r in m.bs && LiveSlots(m.hs, m.bs[r]) == {} :: r !in from.Values)
       <==> (forall r | r in m.kept :: LiveSlots(m.hs, m.bs[r]) != {})
  {
    hide LiveSlots, StaleSlots, Weight, Surplus, Named;
    forall r | r in m.bs ensures r !in from.Values <==> r !in m.kept && LiveSlots(m.hs, m.bs[r]) == {} { ZeroExactly(m, r); }
  }

  // h is one of the first n slots of b.
  ghost predicate Among(b: Block, n: nat, h: Address) {
    exists k: nat :: k < n && h == Slot(b, k)
  }

  lemma NextAmong(b: Block, n: nat)
    requires b.slabSize > 0
    ensures !Among(b, n, Slot(b, n)) && forall h :: Among(b, n + 1, h) <==> Among(b, n, h) || h == Slot(b, n)
  {
    SlotsDiffer(b, n);
    forall h | Among(b, n, h) ensures Among(b, n + 1, h) { var k: nat :| k < n && h == Slot(b, k); }
  }

  lemma AllAmong(b: Block)
    ensures forall h :: Among(b, b.count, h) <==> h in SlotsOf(b)
  {
  }

  lemma StillDistinct<T>(s: seq<T>, x: T)
    requires Distinct(s) && x !in s
    ensures Distinct(s + [x])
  {
  }

  lemma BlockCount(n: nat, d: nat)
    requires d > 0
    ensures n / d * d <= n < (n / d + 1) * d && (n / d == 0 <==> n < d)
  {
    assert n == (n / d) * d + n % d;
  }

  lemma SlotZero(b: Block)
    ensures Slot(b, 0) == b.base && (b.count > 0 ==> b.base in SlotsOf(b))
  {
  }

  lemma SlotsDiffer(b: Block, i: nat)
    requires b.slabSize > 0
    ensures forall k: nat | k != i :: Slot(b, k) != Slot(b, i)
  {
    forall k: nat | k != i ensures Slot(b, k) != Slot(b, i) {
      if k < i { SlotGap(b, k, i); } else { SlotGap(b, i, k); }
    }
  }

  lemma ListedSlots(b: Block, list: seq<Address>)
    requires b.slabSize > 0 && b.count > 0 && |list| == b.count - 1 && forall k | 0 <= k < |list| :: list[k] == Slot(b, k + 1)
    ensures Distinct(list) && forall h :: h in list <==> h in SlotsOf(b) && h != b.base
  {
    forall i, j | 0 <= i < j < |list| ensures list[i] != list[j] { SlotGap(b, i + 1, j + 1); }
    SlotsDiffer(b, 0);
    SlotZero(b);
    forall h | h in SlotsOf(b) && h != b.base ensures h in list {
      var i: nat :| i < b.count && h == Slot(b, i);
      assert list[i - 1] == h;
    }
  }

  // One allocation, live across a shrink and freed afterwards: the pool holds a block without a
  // live slot, and the next shrink does not release it.
  method IdleBlockStays() returns (pool: SlabPoolImpl, ghost r: Record)
    ensures pool.Valid() && r in pool.blocks && LiveSlots(pool.headers, pool.blocks[r]) == {}
  {
    hide StoreOk, Lineage, Works, Exact, Shrinks, Follows, Sum, HeldSizes, SlotsOf, LiveSlots;
    pool := new SlabPoolImpl(Config(65536, false), 0);
    assert forall g :: !Held(pool.blocks, pool.headers, pool.large, g);
    assert ClassFits(0, 8);
    var ptr := pool.Alloc(8, 4096);
    ghost var h := ptr - HEADER;
    ghost var from := pool.Shrink();
    r := HeldInBlock(pool.blocks, pool.headers, pool.large, h);
    pool.Free(ptr);
    KeptAreHeld(pool.Abs(), r);
    from := pool.Shrink();
    r := HeirOf(pool.blocks, from, r);
    NoneLive(pool.blocks, pool.headers, pool.large, r);
  }

  lemma HeldInBlock(bs: Blocks, hs: Headers, large: seq<Address>, h: Address) returns (r: Record)
    requires Held(bs, hs, large, h) && h !in large
    ensures r in bs && h in SlotsOf(bs[r])
  {
    hide SlotsOf;
    r :| r in bs && h in SlotsOf(bs[r]);
  }

  lemma KeptAreHeld(m: Memory, r: Record)
    requires Lineage(m) && r in m.kept
    ensures r in m.bs
  {
  }

  lemma HeirOf(bs: Blocks, from: map<Record, Record>, r: Record) returns (q: Record)
    requires r in from.Values && from.Keys == bs.Keys
    ensures q in bs
  {
    q :| q in from && from[q] == r;
  }

  lemma NoneLive(bs: Blocks, hs: Headers, large: seq<Address>, r: Record)
    requires r in bs && forall h :: !Held(bs, hs, large, h)
    ensures LiveSlots(hs, bs[r]) == {}
  {
    hide SlotsOf;
    forall h | h in SlotsOf(bs[r]) ensures !Live(hs, h) {
      assert Slotted(bs, h);
      assert !Held(bs, hs, large, h);
    }
  }
}
