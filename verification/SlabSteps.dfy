/**
 Every operation of a slab pool keeps its memory consistent.
 */
module SlabSteps {
  import opened Sums
  import opened SlabStore

  type FreeLists = seq<seq<Address>>

  ghost predicate FreesOk(bs: Blocks, hs: Headers, free: FreeLists) {
    |free| == CLASSES && forall c | 0 <= c < CLASSES :: FreeOk(bs, hs, c, free[c])
  }

  ghost predicate StoreOk(cfg: Config, bs: Blocks, hs: Headers, next: Record, free: FreeLists, large: seq<Address>) {
    && next > 0
    && BlocksOk(cfg, bs, next)
    && HeadersOk(bs, hs, next)
    && CountsOk(bs, hs)
    && FreesOk(bs, hs, free)
    && LargeOk(cfg, bs, hs, large)
  }

  // ---------------------------------------------------------------------------------------
  // An idle slot is handed out

  function Marked(hs: Headers, h: Address, c: nat, size: nat): Headers
    requires h in hs
  {
    hs[h := hs[h].(live := true, cls := c, size := size)]
  }

  lemma TakeFree(cfg: Config, bs: Blocks, hs: Headers, next: Record, free: FreeLists, c: nat, r: Record, h: Address, size: nat)
    requires BlocksOk(cfg, bs, next) && FreesOk(bs, hs, free) && c < CLASSES && free[c] != []
    requires h == free[c][|free[c]| - 1] && r in bs && h in SlotsOf(bs[r]) && bs[r].cls == c && h in hs
    ensures FreesOk(bs, Marked(hs, h, c, size), free[c := free[c][..|free[c]| - 1]])
  {
    hide SlotsOf, BlocksOk, Idle;
    var hs', free' := Marked(hs, h, c, size), free[c := free[c][..|free[c]| - 1]];
    forall d | 0 <= d < CLASSES ensures FreeOk(bs, hs', d, free'[d]) {
      assert FreeOk(bs, hs, d, free[d]);
      forall g ensures g in free'[d] <==> Idle(bs, hs', d, g) {
        OnlyAtIdle(cfg, bs, hs, hs', next, r, h, d, g);
        OnlyAtIdle(cfg, bs, hs, hs, next, r, h, d, g);
        if d == c { Shorter(free[c], g); }
      }
    }
  }

  lemma Shorter<T>(s: seq<T>, g: T)
    requires s != [] && Distinct(s)
    ensures g in s[..|s| - 1] <==> g in s && g != s[|s| - 1]
  {
    assert s == s[..|s| - 1] + [s[|s| - 1]];
  }

  lemma TakeStore(cfg: Config, bs: Blocks, hs: Headers, next: Record, free: FreeLists, large: seq<Address>, c: nat, size: nat)
    returns (r: Record)
    requires StoreOk(cfg, bs, hs, next, free, large) && c < CLASSES && 0 < size <= SIZES[c] && free[c] != []
    ensures var h := free[c][|free[c]| - 1];
      && r in bs && h in SlotsOf(bs[r]) && bs[r].cls == c && h in hs && !hs[h].live
      && (hs[h].owner == r || hs[h].owner !in bs)
      && var bs' := CountUp(bs, hs[h].owner); var hs' := Marked(hs, h, c, size);
        && StoreOk(cfg, bs', hs', next, free[c := free[c][..|free[c]| - 1]], large)
        && SurplusKept(bs, hs, bs', hs') && SameShape(bs, bs')
        && (Exact(bs, hs) ==> Exact(bs', hs'))
  {
    hide SlotsOf, BlocksOk, HeadersOk, CountsOk, LargeOk, FreeOk, SurplusKept, SameShape, Exact, Charged;
    var h := free[c][|free[c]| - 1];
    r := IdleBlock(bs, hs, free, c, h);
    SlotFacts(bs, hs, next, r, h);
    var bs', hs' := CountUp(bs, hs[h].owner), Marked(hs, h, c, size);
    OnlyAtHeaders(cfg, bs, hs, hs', next, r, h);
    OnlyAtLarge(cfg, bs, hs, hs', next, large, r, h);
    TakeFree(cfg, bs, hs, next, free, c, r, h, size);
    TakeSurplus(cfg, bs, hs, hs', next, r, h);
    TakeExact(cfg, bs, hs, hs', next, r, h);
    CountUpShape(bs, hs[h].owner);
    ShapeStore(cfg, bs, bs', hs', next, free[c := free[c][..|free[c]| - 1]], large);
    ShapeKeys(bs, bs');
    SurplusCounts(bs, hs, bs', hs');
  }

  lemma ShapeKeys(bs: Blocks, bs': Blocks)
    requires SameShape(bs, bs')
    ensures bs'.Keys == bs.Keys
  {
  }

  lemma IdleBlock(bs: Blocks, hs: Headers, free: FreeLists, c: nat, h: Address) returns (r: Record)
    requires FreesOk(bs, hs, free) && c < CLASSES && h in free[c]
    ensures r in bs && h in SlotsOf(bs[r]) && bs[r].cls == c && !Live(hs, h)
  {
    hide SlotsOf;
    assert FreeOk(bs, hs, c, free[c]);
    r :| r in bs && bs[r].cls == c && h in SlotsOf(bs[r]);
  }

  lemma SlotFacts(bs: Blocks, hs: Headers, next: Record, r: Record, h: Address)
    requires HeadersOk(bs, hs, next) && r in bs && h in SlotsOf(bs[r])
    ensures SlotOk(bs, hs, next, r, h)
  {
  }

  lemma ShapeStore(cfg: Config, bs: Blocks, bs': Blocks, hs: Headers, next: Record, free: FreeLists, large: seq<Address>)
    requires SameShape(bs, bs') && BlocksOk(cfg, bs, next) && HeadersOk(bs, hs, next)
    requires FreesOk(bs, hs, free) && LargeOk(cfg, bs, hs, large)
    ensures BlocksOk(cfg, bs', next) && HeadersOk(bs', hs, next) && FreesOk(bs', hs, free) && LargeOk(cfg, bs', hs, large)
  {
    hide SlotsOf, BlocksOk, HeadersOk, LargeOk, FreeOk, SameShape;
    ShapeBlocks(cfg, bs, bs', next);
    ShapeHeaders(bs, bs', hs, next);
    ShapeLarge(cfg, bs, bs', hs, large);
    forall c | 0 <= c < CLASSES ensures FreeOk(bs', hs, c, free[c]) { ShapeFree(bs, bs', hs, c, free[c]); }
  }

  // ---------------------------------------------------------------------------------------
  // A slot is given back

  function Unmarked(hs: Headers, h: Address): Headers
    requires h in hs
  {
    hs[h := hs[h].(live := false)]
  }

  lemma GiveFree(cfg: Config, bs: Blocks, hs: Headers, next: Record, free: FreeLists, c: nat, r: Record, h: Address)
    requires BlocksOk(cfg, bs, next) && FreesOk(bs, hs, free) && c < CLASSES && Live(hs, h)
    requires r in bs && h in SlotsOf(bs[r]) && bs[r].cls == c
    ensures FreesOk(bs, Unmarked(hs, h), free[c := free[c] + [h]])
  {
    hide SlotsOf, BlocksOk, Idle;
    var hs', free' := Unmarked(hs, h), free[c := free[c] + [h]];
    forall d | 0 <= d < CLASSES ensures FreeOk(bs, hs', d, free'[d]) {
      assert FreeOk(bs, hs, d, free[d]);
      OnlyAtIdle(cfg, bs, hs, hs, next, r, h, d, h);
      forall g ensures g in free'[d] <==> Idle(bs, hs', d, g) {
        OnlyAtIdle(cfg, bs, hs, hs', next, r, h, d, g);
      }
    }
  }

  lemma GiveStore(cfg: Config, bs: Blocks, hs: Headers, next: Record, free: FreeLists, large: seq<Address>, r: Record, h: Address)
    requires StoreOk(cfg, bs, hs, next, free, large) && r in bs && h in SlotsOf(bs[r]) && Live(hs, h)
    ensures hs[h].cls == bs[r].cls < CLASSES
    ensures hs[h].owner in bs ==> bs[hs[h].owner].used > 0
    ensures var bs' := CountDown(bs, hs[h].owner); var hs' := Unmarked(hs, h); var c := hs[h].cls;
      && StoreOk(cfg, bs', hs', next, free[c := free[c] + [h]], large)
      && SurplusKept(bs, hs, bs', hs') && SameShape(bs, bs')
      && (Exact(bs, hs) ==> (Exact(bs', hs') <==> hs[h].owner == r))
  {
    hide SlotsOf, BlocksOk, HeadersOk, CountsOk, LargeOk, FreeOk, SurplusKept, SameShape, Exact, Charged;
    SlotFacts(bs, hs, next, r, h);
    var bs', hs', c := CountDown(bs, hs[h].owner), Unmarked(hs, h), hs[h].cls;
    GivePositive(bs, hs, r, h);
    OnlyAtHeaders(cfg, bs, hs, hs', next, r, h);
    OnlyAtLarge(cfg, bs, hs, hs', next, large, r, h);
    GiveFree(cfg, bs, hs, next, free, c, r, h);
    GiveSurplus(cfg, bs, hs, hs', next, r, h);
    GiveExact(cfg, bs, hs, hs', next, r, h);
    CountUpShape(bs, hs[h].owner);
    ShapeStore(cfg, bs, bs', hs', next, free[c := free[c] + [h]], large);
    ShapeKeys(bs, bs');
    SurplusCounts(bs, hs, bs', hs');
  }

  // ---------------------------------------------------------------------------------------
  // New memory

  // What the underlying allocator promises of n bytes at raw.
  ghost predicate Fresh(cfg: Config, bs: Blocks, hs: Headers, large: seq<Address>, raw: Address, n: nat) {
    && raw > 0
    && (forall r | r in bs :: Clear(raw, n, bs[r].base, cfg.blockSize))
    && (forall h | h in large && h in hs :: Clear(raw, n, h, Footprint(cfg, hs[h].size)))
  }

  // The headers of a new block: its first slot is live, all belong to its record.
  ghost predicate Carved(hs: Headers, hs': Headers, b: Block, r: Record, size: nat) {
    && (forall g | g in hs && g !in SlotsOf(b) :: g in hs' && hs'[g] == hs[g])
    && (forall g | g in SlotsOf(b) :: g in hs' && hs'[g].owner == r && (hs'[g].live <==> g == b.base))
    && b.base in SlotsOf(b) && hs'[b.base].cls == b.cls && hs'[b.base].size == size
  }

  lemma FreshSlots(cfg: Config, bs: Blocks, next: Record, hs: Headers, large: seq<Address>, b: Block, h: Address)
    requires BlocksOk(cfg, bs, next) && LargeOk(cfg, bs, hs, large)
    requires BlockOk(cfg, b) && Fresh(cfg, bs, hs, large, b.base, cfg.blockSize) && h in SlotsOf(b)
    ensures h !in large && forall r | r in bs :: h !in SlotsOf(bs[r])
  {
    hide SlotsOf, BlockOk, Distinct;
    SlotWithin(cfg, b, h);
    forall r | r in bs && h in SlotsOf(bs[r]) ensures false { SlotWithin(cfg, bs[r], h); }
  }

  lemma NewBlocks(cfg: Config, bs: Blocks, hs: Headers, next: Record, large: seq<Address>, b: Block)
    requires BlocksOk(cfg, bs, next) && next > 0 && BlockOk(cfg, b) && Fresh(cfg, bs, hs, large, b.base, cfg.blockSize)
    ensures BlocksOk(cfg, bs[next := b], next + 1)
  {
    hide BlockOk;
  }

  lemma NewHeaders(cfg: Config, bs: Blocks, hs: Headers, hs': Headers, next: Record, large: seq<Address>, b: Block, size: nat)
    requires BlocksOk(cfg, bs, next) && LargeOk(cfg, bs, hs, large) && HeadersOk(bs, hs, next)
    requires BlockOk(cfg, b) && Fresh(cfg, bs, hs, large, b.base, cfg.blockSize)
    requires Carved(hs, hs', b, next, size) && 0 < size <= SIZES[b.cls]
    ensures HeadersOk(bs[next := b], hs', next + 1)
  {
    hide SlotsOf, LargeOk, Fresh;
    var bs' := bs[next := b];
    forall r, h | r in bs' && h in SlotsOf(bs'[r]) ensures SlotOk(bs', hs', next + 1, r, h) {
      if r != next {
        assert SlotOk(bs, hs, next, r, h);
        if h in SlotsOf(b) { FreshSlots(cfg, bs, next, hs, large, b, h); }
      }
    }
  }

  lemma NewLarge(cfg: Config, bs: Blocks, hs: Headers, hs': Headers, next: Record, large: seq<Address>, b: Block, size: nat)
    requires BlocksOk(cfg, bs, next) && LargeOk(cfg, bs, hs, large)
    requires BlockOk(cfg, b) && Fresh(cfg, bs, hs, large, b.base, cfg.blockSize) && Carved(hs, hs', b, next, size)
    ensures LargeOk(cfg, bs[next := b], hs', large)
  {
    hide SlotsOf, BlocksOk, BlockOk, Distinct;
    forall h | h in large ensures h !in SlotsOf(b) {
      if h in SlotsOf(b) { FreshSlots(cfg, bs, next, hs, large, b, h); }
    }
  }

  lemma OldSame(hs: Headers, hs': Headers, b: Block, r: Record, size: nat, q: Record, a: Block)
    requires Carved(hs, hs', b, r, size) && SlotsOf(a) !! SlotsOf(b) && SlotsOf(a) <= hs.Keys
    ensures Charged(hs', q, a) == Charged(hs, q, a) && LiveSlots(hs', a) == LiveSlots(hs, a)
  {
    hide SlotsOf;
  }

  lemma NewSame(hs: Headers, hs': Headers, b: Block, r: Record, size: nat)
    requires Carved(hs, hs', b, r, size)
    ensures Charged(hs', r, b) == {b.base} && LiveSlots(hs', b) == {b.base}
  {
    hide SlotsOf;
  }

  lemma SlotsKnown(bs: Blocks, hs: Headers, next: Record, r: Record)
    requires HeadersOk(bs, hs, next) && r in bs
    ensures SlotsOf(bs[r]) <= hs.Keys
  {
    hide SlotsOf;
    forall h | h in SlotsOf(bs[r]) ensures h in hs { assert SlotOk(bs, hs, next, r, h); }
  }

  lemma NewSeparate(cfg: Config, bs: Blocks, hs: Headers, next: Record, large: seq<Address>, b: Block, r: Record)
    requires BlocksOk(cfg, bs, next) && LargeOk(cfg, bs, hs, large) && HeadersOk(bs, hs, next) && r in bs
    requires BlockOk(cfg, b) && Fresh(cfg, bs, hs, large, b.base, cfg.blockSize)
    ensures SlotsOf(bs[r]) !! SlotsOf(b) && SlotsOf(bs[r]) <= hs.Keys
  {
    hide SlotsOf, BlocksOk, LargeOk, HeadersOk, BlockOk, Fresh;
    SlotsKnown(bs, hs, next, r);
    forall h | h in SlotsOf(b) ensures h !in SlotsOf(bs[r]) { FreshSlots(cfg, bs, next, hs, large, b, h); }
  }

  lemma NewCounts(cfg: Config, bs: Blocks, hs: Headers, hs': Headers, next: Record, large: seq<Address>, b: Block, size: nat)
    requires BlocksOk(cfg, bs, next) && LargeOk(cfg, bs, hs, large) && HeadersOk(bs, hs, next) && CountsOk(bs, hs)
    requires BlockOk(cfg, b) && Fresh(cfg, bs, hs, large, b.base, cfg.blockSize) && Carved(hs, hs', b, next, size) && b.used == 1
    ensures CountsOk(bs[next := b], hs') && (Exact(bs, hs) ==> Exact(bs[next := b], hs'))
    ensures SurplusKept(bs, hs, bs[next := b], hs')
  {
    hide SlotsOf, BlockOk, LargeOk, HeadersOk, Fresh, Carved, Charged, LiveSlots;
    assert next !in bs;
    var bs' := bs[next := b];
    NewSame(hs, hs', b, next, size);
    forall r | r in bs ensures Charged(hs', r, bs[r]) == Charged(hs, r, bs[r]) && LiveSlots(hs', bs[r]) == LiveSlots(hs, bs[r]) {
      NewSeparate(cfg, bs, hs, next, large, b, r);
      OldSame(hs, hs', b, next, size, r, bs[r]);
    }
  }

  lemma NewIdle(cfg: Config, bs: Blocks, hs: Headers, hs': Headers, next: Record, large: seq<Address>, b: Block, size: nat, c: nat, h: Address)
    requires BlocksOk(cfg, bs, next) && LargeOk(cfg, bs, hs, large) && HeadersOk(bs, hs, next)
    requires BlockOk(cfg, b) && Fresh(cfg, bs, hs, large, b.base, cfg.blockSize) && Carved(hs, hs', b, next, size)
    ensures Idle(bs[next := b], hs', c, h) <==> Idle(bs, hs, c, h) || (c == b.cls && h in SlotsOf(b) && h != b.base)
  {
    hide SlotsOf, BlockOk, LargeOk, HeadersOk, Fresh;
    assert next !in bs;
    var bs' := bs[next := b];
    forall r | r in bs ensures SlotsOf(bs[r]) !! SlotsOf(b) && SlotsOf(bs[r]) <= hs.Keys {
      NewSeparate(cfg, bs, hs, next, large, b, r);
    }
    if Idle(bs, hs, c, h) {
      var r :| r in bs && bs[r].cls == c && h in SlotsOf(bs[r]);
      assert r in bs' && bs'[r].cls == c && h in SlotsOf(bs'[r]);
    }
    if c == b.cls && h in SlotsOf(b) && h != b.base {
      assert next in bs' && bs'[next].cls == c && h in SlotsOf(bs'[next]);
    }
  }

  lemma NewStore(cfg: Config, bs: Blocks, hs: Headers, hs': Headers, next: Record, free: FreeLists, large: seq<Address>,
                 b: Block, size: nat, rest: seq<Address>)
    requires StoreOk(cfg, bs, hs, next, free, large) && BlockOk(cfg, b) && b.used == 1 && free[b.cls] == []
    requires Fresh(cfg, bs, hs, large, b.base, cfg.blockSize) && Carved(hs, hs', b, next, size) && 0 < size <= SIZES[b.cls]
    requires Distinct(rest) && forall h :: h in rest <==> h in SlotsOf(b) && h != b.base
    ensures next !in bs
    ensures StoreOk(cfg, bs[next := b], hs', next + 1, free[b.cls := rest], large)
    ensures SurplusKept(bs, hs, bs[next := b], hs') && (Exact(bs, hs) ==> Exact(bs[next := b], hs'))
  {
    hide SlotsOf, BlocksOk, HeadersOk, CountsOk, LargeOk, FreeOk, SurplusKept, Exact, Fresh, Carved;
    NewBlocks(cfg, bs, hs, next, large, b);
    NewHeaders(cfg, bs, hs, hs', next, large, b, size);
    NewCounts(cfg, bs, hs, hs', next, large, b, size);
    NewLarge(cfg, bs, hs, hs', next, large, b, size);
    NotYet(cfg, bs, next);
    var bs', free' := bs[next := b], free[b.cls := rest];
    forall c | 0 <= c < CLASSES ensures FreeOk(bs', hs', c, free'[c]) {
      NewFree(cfg, bs, hs, hs', next, free, large, b, size, rest, c);
    }
  }

  lemma NotYet(cfg: Config, bs: Blocks, next: Record)
    requires BlocksOk(cfg, bs, next)
    ensures next !in bs
  {
  }

  lemma NewFree(cfg: Config, bs: Blocks, hs: Headers, hs': Headers, next: Record, free: FreeLists, large: seq<Address>,
                b: Block, size: nat, rest: seq<Address>, c: nat)
    requires StoreOk(cfg, bs, hs, next, free, large) && BlockOk(cfg, b) && free[b.cls] == [] && c < CLASSES
    requires Fresh(cfg, bs, hs, large, b.base, cfg.blockSize) && Carved(hs, hs', b, next, size)
    requires Distinct(rest) && forall h :: h in rest <==> h in SlotsOf(b) && h != b.base
    ensures FreeOk(bs[next := b], hs', c, free[b.cls := rest][c])
  {
    hide SlotsOf, BlocksOk, HeadersOk, CountsOk, LargeOk, Fresh, Carved, Idle, Distinct;
    assert FreeOk(bs, hs, c, free[c]);
    var bs', list := bs[next := b], free[b.cls := rest][c];
    forall h ensures h in list <==> Idle(bs', hs', c, h) {
      NewIdle(cfg, bs, hs, hs', next, large, b, size, c, h);
    }
  }

  // ---------------------------------------------------------------------------------------
  // Large allocations

  ghost predicate SameBut(hs: Headers, hs': Headers, h: Address) {
    forall g | g != h :: (g in hs' <==> g in hs) && (g in hs ==> hs'[g] == hs[g])
  }

  // A header outside all slots changes nothing for the blocks.
  lemma OutsideHeader(cfg: Config, bs: Blocks, hs: Headers, hs': Headers, next: Record, free: FreeLists, h: Address)
    requires BlocksOk(cfg, bs, next) && HeadersOk(bs, hs, next) && CountsOk(bs, hs) && FreesOk(bs, hs, free)
    requires (forall r | r in bs :: h !in SlotsOf(bs[r])) && SameBut(hs, hs', h)
    ensures HeadersOk(bs, hs', next) && CountsOk(bs, hs') && FreesOk(bs, hs', free)
    ensures SurplusKept(bs, hs, bs, hs') && (Exact(bs, hs) <==> Exact(bs, hs'))
  {
    hide SlotsOf, BlocksOk, FreeOk, Charged, LiveSlots, SameBut, HeadersOk;
    OutsideSlots(bs, hs, hs', next, h);
    forall r | r in bs ensures Charged(hs', r, bs[r]) == Charged(hs, r, bs[r]) && LiveSlots(hs', bs[r]) == LiveSlots(hs, bs[r]) {
      OutsideCharge(hs, hs', r, bs[r], h);
    }
    forall c | 0 <= c < CLASSES ensures FreeOk(bs, hs', c, free[c]) { OutsideFree(bs, hs, hs', c, free[c], h); }
  }

  lemma OutsideSlots(bs: Blocks, hs: Headers, hs': Headers, next: Record, h: Address)
    requires HeadersOk(bs, hs, next) && (forall r | r in bs :: h !in SlotsOf(bs[r])) && SameBut(hs, hs', h)
    ensures HeadersOk(bs, hs', next)
  {
    hide SlotsOf;
    forall r, g | r in bs && g in SlotsOf(bs[r]) ensures SlotOk(bs, hs', next, r, g) { assert SlotOk(bs, hs, next, r, g); }
  }

  lemma OutsideCharge(hs: Headers, hs': Headers, r: Record, b: Block, h: Address)
    requires h !in SlotsOf(b) && SameBut(hs, hs', h)
    ensures Charged(hs', r, b) == Charged(hs, r, b) && LiveSlots(hs', b) == LiveSlots(hs, b)
  {
    hide SlotsOf;
  }

  lemma OutsideFree(bs: Blocks, hs: Headers, hs': Headers, c: nat, free: seq<Address>, h: Address)
    requires FreeOk(bs, hs, c, free) && forall r | r in bs :: h !in SlotsOf(bs[r])
    requires SameBut(hs, hs', h)
    ensures FreeOk(bs, hs', c, free)
  {
    hide SlotsOf, Distinct;
    forall g ensures Idle(bs, hs', c, g) <==> Idle(bs, hs, c, g) { }
  }

  lemma LargeApart(cfg: Config, bs: Blocks, hs: Headers, next: Record, large: seq<Address>, raw: Address, n: nat)
    requires BlocksOk(cfg, bs, next) && Fresh(cfg, bs, hs, large, raw, n) && n > 0 && LargeOk(cfg, bs, hs, large)
    ensures raw !in large && forall r | r in bs :: raw !in SlotsOf(bs[r])
  {
    hide SlotsOf, BlockOk, Distinct;
    forall r | r in bs && raw in SlotsOf(bs[r]) ensures false { SlotWithin(cfg, bs[r], raw); }
  }

  lemma AddLarge(cfg: Config, bs: Blocks, hs: Headers, next: Record, free: FreeLists, large: seq<Address>, raw: Address, size: nat)
    requires StoreOk(cfg, bs, hs, next, free, large) && Fresh(cfg, bs, hs, large, raw, Footprint(cfg, size)) && size > 0
    ensures var hs' := hs[raw := Header(true, LARGE, size, 0)];
      && StoreOk(cfg, bs, hs', next, free, large + [raw]) && raw !in large && SurplusKept(bs, hs, bs, hs')
      && (Exact(bs, hs) <==> Exact(bs, hs'))
  {
    hide SlotsOf, BlocksOk, HeadersOk, CountsOk, FreesOk, SurplusKept, Exact;
    var hs' := hs[raw := Header(true, LARGE, size, 0)];
    LargeApart(cfg, bs, hs, next, large, raw, Footprint(cfg, size));
    OutsideHeader(cfg, bs, hs, hs', next, free, raw);
  }

  lemma RemoveLarge(cfg: Config, bs: Blocks, hs: Headers, next: Record, free: FreeLists, large: seq<Address>, large': seq<Address>, h: Address)
    requires StoreOk(cfg, bs, hs, next, free, large) && h in large
    requires Distinct(large') && forall g :: g in large' <==> g in large && g != h
    ensures StoreOk(cfg, bs, hs - {h}, next, free, large') && SurplusKept(bs, hs, bs, hs - {h})
    ensures Exact(bs, hs) <==> Exact(bs, hs - {h})
  {
    hide SlotsOf, BlocksOk, HeadersOk, CountsOk, FreesOk, SurplusKept, Exact, Distinct;
    forall r | r in bs ensures h !in SlotsOf(bs[r]) { LargeIsNoSlot(cfg, bs, next, hs, large, r, h); }
    OutsideHeader(cfg, bs, hs, hs - {h}, next, free, h);
    LargeLeft(cfg, bs, hs, large, large', h);
  }

  lemma LargeLeft(cfg: Config, bs: Blocks, hs: Headers, large: seq<Address>, large': seq<Address>, h: Address)
    requires LargeOk(cfg, bs, hs, large) && Distinct(large') && forall g :: g in large' <==> g in large && g != h
    ensures LargeOk(cfg, bs, hs - {h}, large')
  {
    hide Distinct;
  }

  // ---------------------------------------------------------------------------------------
  // Shrinking one class

  // bs' holds blocks of bs under old or new records; `from` leads back.
  ghost predicate Renamed(bs: Blocks, bs': Blocks, from: map<Record, Record>, next: Record) {
    && from.Keys == bs'.Keys
    && (forall r | r in bs' :: from[r] in bs && bs'[r] == bs[from[r]] && (r == from[r] || (next <= r && from[r] !in bs')))
    && (forall r, q | r in bs' && q in bs' && from[r] == from[q] :: r == q)
  }

  // Headers keep everything but their owners.
  ghost predicate SameUse(hs: Headers, hs': Headers) {
    hs'.Keys == hs.Keys && forall h | h in hs :: hs'[h] == hs[h].(owner := hs'[h].owner)
  }

  // The idle slots of a renewed block get its new record as owner, all others keep theirs.
  ghost predicate Adopted(hs: Headers, hs': Headers, r: Record, renewed: bool, b: Block) {
    forall h | h in SlotsOf(b) ::
      h in hs && h in hs' && hs'[h].owner == if renewed && !hs[h].live then r else hs[h].owner
  }

  ghost predicate Rehomed(bs': Blocks, from: map<Record, Record>, hs: Headers, hs': Headers) {
    && SameUse(hs, hs') && from.Keys == bs'.Keys
    && (forall r | r in bs' :: Adopted(hs, hs', r, r != from[r], bs'[r]))
  }

  // Only class c was touched, and all of it.
  ghost predicate ClassOnly(bs: Blocks, bs': Blocks, from: map<Record, Record>, c: nat) {
    && from.Keys == bs'.Keys
    && (forall r | r in bs && bs[r].cls != c :: r in bs' && from[r] == r)
    && (forall r | r in bs' && bs'[r].cls == c :: r != from[r])
  }

  lemma RenamedBlocks(cfg: Config, bs: Blocks, bs': Blocks, from: map<Record, Record>, next: Record, next': Record)
    requires BlocksOk(cfg, bs, next) && Renamed(bs, bs', from, next) && next <= next' && forall r | r in bs' :: r < next'
    ensures BlocksOk(cfg, bs', next')
  {
    hide BlockOk;
    forall r, q | r in bs' && q in bs' && r != q ensures Clear(bs'[r].base, cfg.blockSize, bs'[q].base, cfg.blockSize) {
      assert from[r] != from[q];
      assert Clear(bs[from[r]].base, cfg.blockSize, bs[from[q]].base, cfg.blockSize);
    }
  }

  lemma RenamedHeaders(bs: Blocks, bs': Blocks, hs: Headers, hs': Headers, from: map<Record, Record>, next: Record, next': Record)
    requires HeadersOk(bs, hs, next) && Renamed(bs, bs', from, next) && Rehomed(bs', from, hs, hs')
    requires next <= next' && forall r | r in bs' :: r < next'
    ensures HeadersOk(bs', hs', next')
  {
    hide SlotsOf, HeadersOk;
    forall r, h | r in bs' && h in SlotsOf(bs'[r]) ensures SlotOk(bs', hs', next', r, h) {
      SlotFacts(bs, hs, next, from[r], h);
      assert Adopted(hs, hs', r, r != from[r], bs'[r]);
    }
    HeadersFrom(bs', hs', next');
  }

  lemma HeadersFrom(bs: Blocks, hs: Headers, next: Record)
    requires forall r, h | r in bs && h in SlotsOf(bs[r]) :: SlotOk(bs, hs, next, r, h)
    ensures HeadersOk(bs, hs, next)
  {
  }

  lemma UseLive(hs: Headers, hs': Headers, b: Block)
    requires SameUse(hs, hs')
    ensures LiveSlots(hs', b) == LiveSlots(hs, b)
  {
    hide SlotsOf;
  }

  lemma RenamedCharge(bs: Blocks, hs: Headers, hs': Headers, next: Record, r: Record, q: Record)
    requires HeadersOk(bs, hs, next) && SameUse(hs, hs') && q in bs && Adopted(hs, hs', r, r != q, bs[q]) && (r == q || next <= r)
    ensures r == q ==> Charged(hs', r, bs[q]) == Charged(hs, r, bs[q])
    ensures r != q ==> Charged(hs', r, bs[q]) == LiveSlots(hs, bs[q])
  {
    hide SlotsOf, HeadersOk;
    forall h | h in SlotsOf(bs[q]) ensures h in hs && hs[h].owner < next { SlotFacts(bs, hs, next, q, h); }
  }

  lemma RenamedCounts(bs: Blocks, bs': Blocks, hs: Headers, hs': Headers, from: map<Record, Record>, next: Record)
    requires HeadersOk(bs, hs, next) && CountsOk(bs, hs) && Renamed(bs, bs', from, next) && Rehomed(bs', from, hs, hs')
    ensures CountsOk(bs', hs') && (Exact(bs, hs) ==> Exact(bs', hs'))
  {
    hide HeadersOk, Adopted, LiveSlots, Charged, SameUse;
    forall r | r in bs'
      ensures |Charged(hs', r, bs'[r])| <= bs'[r].used && LiveSlots(hs', bs'[r]) == LiveSlots(hs, bs[from[r]])
    {
      RenamedCharge(bs, hs, hs', next, r, from[r]);
      UseLive(hs, hs', bs'[r]);
      LiveCharged(hs, from[r], bs'[r]);
    }
  }

  lemma LiveCharged(hs: Headers, r: Record, b: Block)
    ensures |LiveSlots(hs, b)| <= |Charged(hs, r, b)|
  {
    hide LiveSlots, StaleSlots;
    SubsetSize(LiveSlots(hs, b), Charged(hs, r, b));
  }

  lemma RenamedLarge(cfg: Config, bs: Blocks, bs': Blocks, hs: Headers, hs': Headers, from: map<Record, Record>, next: Record, large: seq<Address>)
    requires LargeOk(cfg, bs, hs, large) && Renamed(bs, bs', from, next) && SameUse(hs, hs')
    ensures LargeOk(cfg, bs', hs', large)
  {
    hide Distinct;
    forall h, r | h in large && r in bs' ensures Clear(h, Footprint(cfg, hs'[h].size), bs'[r].base, cfg.blockSize) {
      assert Clear(h, Footprint(cfg, hs[h].size), bs[from[r]].base, cfg.blockSize);
    }
  }

  lemma RenamedIdle(bs: Blocks, bs': Blocks, hs: Headers, hs': Headers, from: map<Record, Record>, next: Record, c: nat, d: nat, h: Address)
    requires Renamed(bs, bs', from, next) && ClassOnly(bs, bs', from, c) && SameUse(hs, hs') && d != c
    ensures Idle(bs', hs', d, h) <==> Idle(bs, hs, d, h)
  {
    hide SlotsOf;
    if Idle(bs', hs', d, h) {
      var r :| r in bs' && bs'[r].cls == d && h in SlotsOf(bs'[r]);
      assert from[r] in bs && bs[from[r]].cls == d && h in SlotsOf(bs[from[r]]);
    }
    if Idle(bs, hs, d, h) {
      var r :| r in bs && bs[r].cls == d && h in SlotsOf(bs[r]);
      assert r in bs' && bs'[r] == bs[r];
    }
  }

  lemma RenamedFree(bs: Blocks, bs': Blocks, hs: Headers, hs': Headers, from: map<Record, Record>, next: Record, c: nat, d: nat, free: seq<Address>)
    requires Renamed(bs, bs', from, next) && ClassOnly(bs, bs', from, c) && SameUse(hs, hs') && d != c && FreeOk(bs, hs, d, free)
    ensures FreeOk(bs', hs', d, free)
  {
    hide Idle, Distinct, Renamed, ClassOnly, SameUse;
    forall h ensures Idle(bs', hs', d, h) <==> Idle(bs, hs, d, h) { RenamedIdle(bs, bs', hs, hs', from, next, c, d, h); }
  }

  lemma ShrinkStore(cfg: Config, bs: Blocks, bs': Blocks, hs: Headers, hs': Headers, from: map<Record, Record>,
                    next: Record, next': Record, free: FreeLists, large: seq<Address>, c: nat, list: seq<Address>)
    requires StoreOk(cfg, bs, hs, next, free, large) && c < CLASSES
    requires Renamed(bs, bs', from, next) && ClassOnly(bs, bs', from, c) && Rehomed(bs', from, hs, hs')
    requires next <= next' && (forall r | r in bs' :: r < next') && FreeOk(bs', hs', c, list)
    ensures StoreOk(cfg, bs', hs', next', free[c := list], large)
    ensures Exact(bs, hs) ==> Exact(bs', hs')
  {
    hide BlocksOk, HeadersOk, CountsOk, LargeOk, FreeOk, Exact, Renamed, ClassOnly, Adopted, SameUse;
    RenamedBlocks(cfg, bs, bs', from, next, next');
    RenamedHeaders(bs, bs', hs, hs', from, next, next');
    RenamedCounts(bs, bs', hs, hs', from, next);
    RenamedLarge(cfg, bs, bs', hs, hs', from, next, large);
    var free' := free[c := list];
    forall d | 0 <= d < CLASSES ensures FreeOk(bs', hs', d, free'[d]) {
      if d != c { RenamedFree(bs, bs', hs, hs', from, next, c, d, free[d]); }
    }
  }

  // Every block after came from a block before, unchanged.
  ghost predicate Descends(bs: Blocks, bs': Blocks, from: map<Record, Record>) {
    && from.Keys == bs'.Keys
    && (forall r | r in bs' :: from[r] in bs && bs'[r] == bs[from[r]])
    && (forall r, q | r in bs' && q in bs' && from[r] == from[q] :: r == q)
  }

  // The slots of a block name its record exactly when they are idle.
  ghost predicate Settled(hs: Headers, r: Record, b: Block) {
    forall h | h in SlotsOf(b) && h in hs :: hs[h].owner == r <==> !hs[h].live
  }
}
