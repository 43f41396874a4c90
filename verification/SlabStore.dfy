/**
 The memory of a slab pool: blocks cut into slots, slot headers, and what the pool's books say
 about them.

 A block record is known by the number it got when it was put into its deque; slot headers
 hold such numbers as owner pointers.
 */
module SlabStore {
  import opened Sums
  import opened Modular

  const CLASSES: nat := 10
  const SIZES: seq<nat> := [8, 16, 32, 64, 128, 256, 512, 1024, 2048, 4096]
  const HEADER: nat := 24                 // sizeof(SlabHeader)
  const GUARD: nat := 8
  const LARGE: nat := 0xFFFF              // class_index of a large allocation

  type Address = nat
  type Record = nat

  datatype Config = Config(blockSize: nat, guard: bool)

  datatype Header = Header(live: bool, cls: nat, size: nat, owner: Record)

  datatype Block = Block(cls: nat, base: Address, slabSize: nat, count: nat, used: nat)

  type Blocks = map<Record, Block>
  type Headers = map<Address, Header>

  // ---------------------------------------------------------------------------------------
  // Slots

  function SlabBytes(cfg: Config, cls: nat): nat
    requires cls < CLASSES
  {
    HEADER + SIZES[cls] + if cfg.guard then GUARD else 0
  }

  function Slot(b: Block, i: nat): Address {
    b.base + i * b.slabSize
  }

  function SlotsOf(b: Block): set<Address> {
    set i: nat | 0 <= i < b.count :: Slot(b, i)
  }

  // A block is cut into as many slots as fit.
  predicate BlockOk(cfg: Config, b: Block) {
    && b.cls < CLASSES && b.slabSize == SlabBytes(cfg, b.cls) && b.count > 0
    && b.count * b.slabSize <= cfg.blockSize < (b.count + 1) * b.slabSize
  }

  // The ranges p .. p + m - 1 and q .. q + n - 1 do not meet.
  predicate Clear(p: nat, m: nat, q: nat, n: nat) {
    p + m <= q || q + n <= p
  }

  lemma SlotGap(b: Block, i: nat, j: nat)
    requires i < j
    ensures Slot(b, i) + b.slabSize <= Slot(b, j)
  {
    assert j * b.slabSize - i * b.slabSize == (j - i) * b.slabSize;
    Multiple(j - i, b.slabSize);
  }

  lemma SlotInside(cfg: Config, b: Block, i: nat)
    requires BlockOk(cfg, b) && i < b.count
    ensures b.base <= Slot(b, i) && Slot(b, i) + b.slabSize <= b.base + cfg.blockSize
  {
    assert i * b.slabSize >= 0;
    SlotGap(b, i, b.count);
  }

  lemma SlotsSeparate(cfg: Config, b: Block, g: Address, h: Address)
    requires BlockOk(cfg, b) && g in SlotsOf(b) && h in SlotsOf(b) && g != h
    ensures Clear(g, b.slabSize, h, b.slabSize)
  {
    var i: nat :| i < b.count && g == Slot(b, i);
    var j: nat :| j < b.count && h == Slot(b, j);
    if i < j { SlotGap(b, i, j); } else if j < i { SlotGap(b, j, i); }
  }

  lemma SlotWithin(cfg: Config, b: Block, h: Address)
    requires BlockOk(cfg, b) && h in SlotsOf(b)
    ensures b.base <= h && h + b.slabSize <= b.base + cfg.blockSize && b.slabSize >= HEADER
  {
    var i: nat :| i < b.count && h == Slot(b, i);
    SlotInside(cfg, b, i);
  }

  // ---------------------------------------------------------------------------------------
  // The invariant

  predicate Live(hs: Headers, h: Address) {
    h in hs && hs[h].live
  }

  ghost predicate BlocksOk(cfg: Config, bs: Blocks, next: Record) {
    && (forall r | r in bs :: 0 < r < next && BlockOk(cfg, bs[r]))
    && (forall r, q | r in bs && q in bs && r != q :: Clear(bs[r].base, cfg.blockSize, bs[q].base, cfg.blockSize))
  }

  // A slot's owner is the record of its block, or a record that no longer exists.
  ghost predicate SlotOk(bs: Blocks, hs: Headers, next: Record, r: Record, h: Address)
    requires r in bs
  {
    && h in hs && hs[h].owner < next && (hs[h].owner == r || hs[h].owner !in bs)
    && (hs[h].live ==> hs[h].cls == bs[r].cls && bs[r].cls < CLASSES && 0 < hs[h].size <= SIZES[bs[r].cls])
  }

  ghost predicate HeadersOk(bs: Blocks, hs: Headers, next: Record) {
    forall r, h | r in bs && h in SlotsOf(bs[r]) :: SlotOk(bs, hs, next, r, h)
  }

  // h is a slot of class c that nobody holds.
  ghost predicate Idle(bs: Blocks, hs: Headers, c: nat, h: Address) {
    !Live(hs, h) && exists r :: r in bs && bs[r].cls == c && h in SlotsOf(bs[r])
  }

  ghost predicate FreeOk(bs: Blocks, hs: Headers, c: nat, free: seq<Address>) {
    Distinct(free) && forall h :: h in free <==> Idle(bs, hs, c, h)
  }

  ghost function LiveSlots(hs: Headers, b: Block): set<Address> {
    set h | h in SlotsOf(b) && Live(hs, h)
  }

  // The slots whose use the block's counter does not follow.
  ghost function StaleSlots(hs: Headers, r: Record, b: Block): set<Address> {
    set h | h in SlotsOf(b) && h in hs && hs[h].owner != r
  }

  ghost function Charged(hs: Headers, r: Record, b: Block): set<Address> {
    LiveSlots(hs, b) + StaleSlots(hs, r, b)
  }

  ghost predicate CountsOk(bs: Blocks, hs: Headers) {
    forall r | r in bs :: |Charged(hs, r, bs[r])| <= bs[r].used
  }

  // used_count is the number of live slots.
  ghost predicate Exact(bs: Blocks, hs: Headers) {
    forall r | r in bs :: bs[r].used == |LiveSlots(hs, bs[r])|
  }

  // The bytes of an allocation with its header and guard word.
  function Footprint(cfg: Config, size: nat): nat {
    HEADER + size + if cfg.guard then GUARD else 0
  }

  ghost predicate LargeOk(cfg: Config, bs: Blocks, hs: Headers, large: seq<Address>) {
    && Distinct(large)
    && (forall h | h in large :: h in hs && hs[h].live && hs[h].cls == LARGE && hs[h].size > 0)
    && (forall h, r | h in large && r in bs :: Clear(h, Footprint(cfg, hs[h].size), bs[r].base, cfg.blockSize))
    && (forall g, h | g in large && h in large && g != h :: Clear(g, Footprint(cfg, hs[g].size), h, Footprint(cfg, hs[h].size)))
  }

  // ---------------------------------------------------------------------------------------
  // Consequences

  lemma UniqueBlock(cfg: Config, bs: Blocks, next: Record, r: Record, q: Record, h: Address)
    requires BlocksOk(cfg, bs, next) && r in bs && q in bs && h in SlotsOf(bs[r]) && h in SlotsOf(bs[q])
    ensures r == q
  {
    hide SlotsOf, BlockOk;
    SlotWithin(cfg, bs[r], h);
    SlotWithin(cfg, bs[q], h);
  }

  lemma LargeIsNoSlot(cfg: Config, bs: Blocks, next: Record, hs: Headers, large: seq<Address>, r: Record, h: Address)
    requires BlocksOk(cfg, bs, next) && LargeOk(cfg, bs, hs, large) && r in bs && h in large
    ensures h !in SlotsOf(bs[r])
  {
    hide SlotsOf, BlockOk, Distinct;
    if h in SlotsOf(bs[r]) { SlotWithin(cfg, bs[r], h); }
  }

  ghost predicate Slotted(bs: Blocks, h: Address) {
    exists r :: r in bs && h in SlotsOf(bs[r])
  }

  // h is the header of an allocation that a client holds.
  ghost predicate Held(bs: Blocks, hs: Headers, large: seq<Address>, h: Address) {
    Live(hs, h) && (h in large || Slotted(bs, h))
  }

  lemma LiveWithinSlot(cfg: Config, bs: Blocks, hs: Headers, next: Record, r: Record, h: Address)
    requires BlocksOk(cfg, bs, next) && HeadersOk(bs, hs, next) && r in bs && h in SlotsOf(bs[r]) && Live(hs, h)
    ensures Footprint(cfg, hs[h].size) <= bs[r].slabSize
    ensures bs[r].base <= h && h + bs[r].slabSize <= bs[r].base + cfg.blockSize
  {
    hide SlotsOf;
    assert SlotOk(bs, hs, next, r, h);
    SlotWithin(cfg, bs[r], h);
  }

  // The ranges of two allocations, headers and guard words included, never meet.
  lemma LiveRangesDisjoint(cfg: Config, bs: Blocks, hs: Headers, next: Record, large: seq<Address>, g: Address, h: Address)
    requires BlocksOk(cfg, bs, next) && HeadersOk(bs, hs, next) && LargeOk(cfg, bs, hs, large)
    requires Held(bs, hs, large, g) && Held(bs, hs, large, h) && g != h
    ensures Clear(g, Footprint(cfg, hs[g].size), h, Footprint(cfg, hs[h].size))
  {
    hide SlotsOf, HeadersOk, SlotOk, BlockOk, Distinct;
    if g in large {
      if h !in large {
        var r :| r in bs && h in SlotsOf(bs[r]);
        LiveWithinSlot(cfg, bs, hs, next, r, h);
      }
    } else {
      var q :| q in bs && g in SlotsOf(bs[q]);
      LiveWithinSlot(cfg, bs, hs, next, q, g);
      if h !in large {
        var r :| r in bs && h in SlotsOf(bs[r]);
        LiveWithinSlot(cfg, bs, hs, next, r, h);
        if q == r { SlotsSeparate(cfg, bs[q], g, h); }
      }
    }
  }

  // ---------------------------------------------------------------------------------------
  // Counters

  function SetUsed(bs: Blocks, r: Record, n: nat): Blocks
    requires r in bs
  {
    bs[r := bs[r].(used := n)]
  }

  // A write through an owner pointer: nothing of the pool changes when its record is gone.
  function CountUp(bs: Blocks, owner: Record): Blocks {
    if owner in bs then SetUsed(bs, owner, bs[owner].used + 1) else bs
  }

  function CountDown(bs: Blocks, owner: Record): Blocks {
    if owner in bs && bs[owner].used > 0 then SetUsed(bs, owner, bs[owner].used - 1) else bs
  }

  // The same blocks, up to their counters.
  ghost predicate SameShape(bs: Blocks, bs': Blocks) {
    bs'.Keys == bs.Keys && forall r | r in bs :: bs'[r] == bs[r].(used := bs'[r].used)
  }

  lemma SameSlots(b: Block, n: nat)
    ensures SlotsOf(b.(used := n)) == SlotsOf(b)
  {
    var c := b.(used := n);
    assert forall i: nat :: Slot(c, i) == Slot(b, i);
  }

  lemma ShapeSlots(bs: Blocks, bs': Blocks, r: Record)
    requires SameShape(bs, bs') && r in bs
    ensures r in bs' && SlotsOf(bs'[r]) == SlotsOf(bs[r]) && bs'[r].cls == bs[r].cls
  {
    SameSlots(bs[r], bs'[r].used);
  }

  lemma ShapeBlocks(cfg: Config, bs: Blocks, bs': Blocks, next: Record)
    requires SameShape(bs, bs') && BlocksOk(cfg, bs, next)
    ensures BlocksOk(cfg, bs', next)
  {
    forall r | r in bs' ensures BlockOk(cfg, bs'[r]) && bs'[r].base == bs[r].base {
      assert BlockOk(cfg, bs[r]);
    }
  }

  lemma ShapeHeaders(bs: Blocks, bs': Blocks, hs: Headers, next: Record)
    requires SameShape(bs, bs') && HeadersOk(bs, hs, next)
    ensures HeadersOk(bs', hs, next)
  {
    hide SlotsOf;
    forall r, h | r in bs' && h in SlotsOf(bs'[r]) ensures SlotOk(bs', hs, next, r, h) {
      ShapeSlots(bs, bs', r);
      assert SlotOk(bs, hs, next, r, h);
    }
  }

  lemma ShapeIdle(bs: Blocks, bs': Blocks, hs: Headers, c: nat, h: Address)
    requires SameShape(bs, bs')
    ensures Idle(bs', hs, c, h) <==> Idle(bs, hs, c, h)
  {
    hide SlotsOf, Live;
    forall r | r in bs ensures SlotsOf(bs'[r]) == SlotsOf(bs[r]) && bs'[r].cls == bs[r].cls { ShapeSlots(bs, bs', r); }
  }

  lemma ShapeFree(bs: Blocks, bs': Blocks, hs: Headers, c: nat, free: seq<Address>)
    requires SameShape(bs, bs') && FreeOk(bs, hs, c, free)
    ensures FreeOk(bs', hs, c, free)
  {
    hide Idle, SameShape, Distinct;
    forall h ensures Idle(bs', hs, c, h) <==> Idle(bs, hs, c, h) { ShapeIdle(bs, bs', hs, c, h); }
  }

  lemma ShapeLarge(cfg: Config, bs: Blocks, bs': Blocks, hs: Headers, large: seq<Address>)
    requires SameShape(bs, bs') && LargeOk(cfg, bs, hs, large)
    ensures LargeOk(cfg, bs', hs, large)
  {
    forall h, r | h in large && r in bs' ensures Clear(h, Footprint(cfg, hs[h].size), bs'[r].base, cfg.blockSize) {
      assert r in bs && bs'[r].base == bs[r].base;
    }
  }

  lemma CountUpShape(bs: Blocks, owner: Record)
    ensures SameShape(bs, CountUp(bs, owner)) && SameShape(bs, CountDown(bs, owner))
  {
  }

  // ---------------------------------------------------------------------------------------
  // Changing one slot's header

  // hs' differs from hs at h only, where the owner stays.
  ghost predicate OnlyAt(hs: Headers, hs': Headers, h: Address) {
    && hs'.Keys == hs.Keys && h in hs
    && (forall g | g in hs && g != h :: hs'[g] == hs[g])
    && hs'[h].owner == hs[h].owner
  }

  lemma OnlyAtHeaders(cfg: Config, bs: Blocks, hs: Headers, hs': Headers, next: Record, r: Record, h: Address)
    requires BlocksOk(cfg, bs, next) && HeadersOk(bs, hs, next) && OnlyAt(hs, hs', h) && r in bs && h in SlotsOf(bs[r])
    requires hs'[h].live ==> hs'[h].cls == bs[r].cls && bs[r].cls < CLASSES && 0 < hs'[h].size <= SIZES[bs[r].cls]
    ensures HeadersOk(bs, hs', next)
  {
    hide SlotsOf, BlocksOk;
    forall q, g | q in bs && g in SlotsOf(bs[q]) ensures SlotOk(bs, hs', next, q, g) {
      assert SlotOk(bs, hs, next, q, g);
      if g == h { UniqueBlock(cfg, bs, next, r, q, h); }
    }
  }

  lemma OnlyAtLarge(cfg: Config, bs: Blocks, hs: Headers, hs': Headers, next: Record, large: seq<Address>, r: Record, h: Address)
    requires BlocksOk(cfg, bs, next) && LargeOk(cfg, bs, hs, large) && OnlyAt(hs, hs', h) && r in bs && h in SlotsOf(bs[r])
    ensures LargeOk(cfg, bs, hs', large) && h !in large
  {
    hide SlotsOf, BlocksOk, Distinct;
    forall g | g in large ensures g != h { LargeIsNoSlot(cfg, bs, next, hs, large, r, g); }
  }

  lemma OnlyAtIdle(cfg: Config, bs: Blocks, hs: Headers, hs': Headers, next: Record, r: Record, h: Address, c: nat, g: Address)
    requires BlocksOk(cfg, bs, next) && OnlyAt(hs, hs', h) && r in bs && h in SlotsOf(bs[r])
    ensures g != h ==> (Idle(bs, hs', c, g) <==> Idle(bs, hs, c, g))
    ensures Idle(bs, hs', c, h) <==> c == bs[r].cls && !Live(hs', h)
  {
    hide SlotsOf, BlocksOk;
    forall q | q in bs && h in SlotsOf(bs[q]) ensures q == r { UniqueBlock(cfg, bs, next, r, q, h); }
  }

  lemma OnlyAtCharged(cfg: Config, bs: Blocks, hs: Headers, hs': Headers, next: Record, r: Record, h: Address, q: Record)
    requires BlocksOk(cfg, bs, next) && OnlyAt(hs, hs', h) && r in bs && h in SlotsOf(bs[r]) && q in bs && q != r
    ensures Charged(hs', q, bs[q]) == Charged(hs, q, bs[q]) && LiveSlots(hs', bs[q]) == LiveSlots(hs, bs[q])
  {
    hide SlotsOf, BlocksOk;
    if h in SlotsOf(bs[q]) { UniqueBlock(cfg, bs, next, r, q, h); }
  }

  // The slot becomes live or idle: its block's charge moves with it unless the slot is stale.
  lemma OnlyAtCharge(hs: Headers, hs': Headers, r: Record, b: Block, h: Address)
    requires OnlyAt(hs, hs', h) && h in SlotsOf(b) && hs'[h].live != hs[h].live
    ensures hs[h].owner != r ==> |Charged(hs', r, b)| == |Charged(hs, r, b)|
    ensures hs[h].owner == r ==> |Charged(hs', r, b)| == |Charged(hs, r, b)| + (if hs'[h].live then 1 else -1)
    ensures |LiveSlots(hs', b)| == |LiveSlots(hs, b)| + (if hs'[h].live then 1 else -1)
  {
    hide SlotsOf;
    if hs'[h].live {
      assert LiveSlots(hs', b) == LiveSlots(hs, b) + {h};
    } else {
      assert LiveSlots(hs, b) == LiveSlots(hs', b) + {h};
    }
    assert StaleSlots(hs', r, b) == StaleSlots(hs, r, b);
    ChargeMoves(hs, hs', r, b, h);
  }

  lemma ChargeMoves(hs: Headers, hs': Headers, r: Record, b: Block, h: Address)
    requires OnlyAt(hs, hs', h) && h in SlotsOf(b) && hs'[h].live != hs[h].live
    ensures hs[h].owner != r ==> Charged(hs', r, b) == Charged(hs, r, b)
    ensures hs[h].owner == r ==> |Charged(hs', r, b)| == |Charged(hs, r, b)| + (if hs'[h].live then 1 else -1)
  {
    hide SlotsOf, Charged;
    if hs[h].owner != r {
      ChargeStays(hs, hs', r, b, h);
    } else if hs'[h].live {
      ChargeGains(hs, hs', r, b, h);
    } else {
      ChargeGains(hs', hs, r, b, h);
    }
  }

  lemma ChargeStays(hs: Headers, hs': Headers, r: Record, b: Block, h: Address)
    requires OnlyAt(hs, hs', h) && h in SlotsOf(b) && hs[h].owner != r
    ensures Charged(hs', r, b) == Charged(hs, r, b)
  {
    hide SlotsOf;
  }

  lemma ChargeGains(hs: Headers, hs': Headers, r: Record, b: Block, h: Address)
    requires OnlyAt(hs, hs', h) && h in SlotsOf(b) && hs[h].owner == r && !hs[h].live && hs'[h].live
    ensures |Charged(hs', r, b)| == |Charged(hs, r, b)| + 1
  {
    hide SlotsOf;
    assert h !in Charged(hs, r, b);
    assert Charged(hs', r, b) == Charged(hs, r, b) + {h};
  }

  // What a block's counter holds beyond the slots charged to it.
  ghost function Surplus(bs: Blocks, hs: Headers, r: Record): int
    requires r in bs
  {
    bs[r].used - |Charged(hs, r, bs[r])|
  }

  ghost predicate SurplusKept(bs: Blocks, hs: Headers, bs': Blocks, hs': Headers) {
    forall r | r in bs && r in bs' :: Surplus(bs', hs', r) == Surplus(bs, hs, r)
  }

  lemma SameCharged(hs: Headers, r: Record, b: Block, n: nat)
    ensures Charged(hs, r, b.(used := n)) == Charged(hs, r, b)
    ensures LiveSlots(hs, b.(used := n)) == LiveSlots(hs, b)
  {
    hide SlotsOf;
    SameSlots(b, n);
  }

  lemma SurplusCounts(bs: Blocks, hs: Headers, bs': Blocks, hs': Headers)
    requires CountsOk(bs, hs) && SurplusKept(bs, hs, bs', hs') && bs'.Keys == bs.Keys
    ensures CountsOk(bs', hs')
  {
    hide Charged;
    forall r | r in bs' ensures |Charged(hs', r, bs'[r])| <= bs'[r].used {
      assert Surplus(bs', hs', r) == Surplus(bs, hs, r);
      assert |Charged(hs, r, bs[r])| <= bs[r].used;
    }
  }

  // Handing out an idle slot keeps every surplus.
  lemma TakeSurplus(cfg: Config, bs: Blocks, hs: Headers, hs': Headers, next: Record, r: Record, h: Address)
    requires BlocksOk(cfg, bs, next) && OnlyAt(hs, hs', h) && r in bs && h in SlotsOf(bs[r])
    requires !hs[h].live && hs'[h].live && (hs[h].owner == r || hs[h].owner !in bs)
    ensures SurplusKept(bs, hs, CountUp(bs, hs[h].owner), hs')
  {
    hide SlotsOf, BlocksOk, Charged;
    var bs' := CountUp(bs, hs[h].owner);
    forall q | q in bs ensures Surplus(bs', hs', q) == Surplus(bs, hs, q) {
      SameCharged(hs', q, bs[q], bs'[q].used);
      if q == r { OnlyAtCharge(hs, hs', r, bs[r], h); } else { OnlyAtCharged(cfg, bs, hs, hs', next, r, h, q); }
    }
  }

  // The guard of the decrement never fails.
  lemma GivePositive(bs: Blocks, hs: Headers, r: Record, h: Address)
    requires CountsOk(bs, hs) && r in bs && h in SlotsOf(bs[r]) && Live(hs, h)
    ensures bs[r].used > 0
  {
    hide SlotsOf;
    assert h in Charged(hs, r, bs[r]);
  }

  lemma GiveSurplus(cfg: Config, bs: Blocks, hs: Headers, hs': Headers, next: Record, r: Record, h: Address)
    requires BlocksOk(cfg, bs, next) && CountsOk(bs, hs) && OnlyAt(hs, hs', h) && r in bs && h in SlotsOf(bs[r])
    requires hs[h].live && !hs'[h].live && (hs[h].owner == r || hs[h].owner !in bs)
    ensures SurplusKept(bs, hs, CountDown(bs, hs[h].owner), hs')
  {
    hide SlotsOf, BlocksOk, Charged, CountsOk;
    GivePositive(bs, hs, r, h);
    var bs' := CountDown(bs, hs[h].owner);
    forall q | q in bs ensures Surplus(bs', hs', q) == Surplus(bs, hs, q) {
      SameCharged(hs', q, bs[q], bs'[q].used);
      if q == r { OnlyAtCharge(hs, hs', r, bs[r], h); } else { OnlyAtCharged(cfg, bs, hs, hs', next, r, h, q); }
    }
  }

  // When the counters are exact, no idle slot is stale.
  lemma ExactMeansCurrent(bs: Blocks, hs: Headers, r: Record, h: Address)
    requires CountsOk(bs, hs) && Exact(bs, hs) && r in bs && h in SlotsOf(bs[r]) && h in hs && !hs[h].live
    ensures hs[h].owner == r
  {
    hide SlotsOf;
    var l, c := LiveSlots(hs, bs[r]), Charged(hs, r, bs[r]);
    if hs[h].owner != r {
      assert h in c && h !in l && l <= c;
      SubsetSize(l, c);
    }
  }

  lemma TakeExact(cfg: Config, bs: Blocks, hs: Headers, hs': Headers, next: Record, r: Record, h: Address)
    requires BlocksOk(cfg, bs, next) && OnlyAt(hs, hs', h) && r in bs && h in SlotsOf(bs[r]) && CountsOk(bs, hs)
    requires !hs[h].live && hs'[h].live && (hs[h].owner == r || hs[h].owner !in bs)
    ensures Exact(bs, hs) ==> Exact(CountUp(bs, hs[h].owner), hs')
  {
    hide SlotsOf, BlocksOk, Charged, LiveSlots, CountsOk;
    if Exact(bs, hs) {
      ExactMeansCurrent(bs, hs, r, h);
      var bs' := CountUp(bs, r);
      forall q | q in bs' ensures bs'[q].used == |LiveSlots(hs', bs'[q])| {
        SameCharged(hs', q, bs[q], bs'[q].used);
        if q == r { OnlyAtCharge(hs, hs', r, bs[r], h); } else { OnlyAtCharged(cfg, bs, hs, hs', next, r, h, q); }
      }
    }
  }

  // Taking a slot back keeps the counters exact exactly when its owner is its block's record.
  lemma GiveExact(cfg: Config, bs: Blocks, hs: Headers, hs': Headers, next: Record, r: Record, h: Address)
    requires BlocksOk(cfg, bs, next) && OnlyAt(hs, hs', h) && r in bs && h in SlotsOf(bs[r]) && CountsOk(bs, hs)
    requires hs[h].live && !hs'[h].live && (hs[h].owner == r || hs[h].owner !in bs)
    ensures Exact(bs, hs) ==> (Exact(CountDown(bs, hs[h].owner), hs') <==> hs[h].owner == r)
  {
    hide SlotsOf, BlocksOk, Charged, LiveSlots, CountsOk;
    if Exact(bs, hs) {
      GivePositive(bs, hs, r, h);
      var bs' := CountDown(bs, hs[h].owner);
      SameCharged(hs', r, bs[r], bs'[r].used);
      OnlyAtCharge(hs, hs', r, bs[r], h);
      forall q | q in bs' && q != r ensures bs'[q].used == |LiveSlots(hs', bs'[q])| {
        SameCharged(hs', q, bs[q], bs'[q].used);
        OnlyAtCharged(cfg, bs, hs, hs', next, r, h, q);
      }
    }
  }
}
