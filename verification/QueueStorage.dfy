/**
 The blocks and the slots of an implicit producer: none is ever lost, and an enqueue that
 steps alone fails exactly for want of one.
 */
module QueueStorage {
  import opened Sums
  import RingSizing
  import BlockIndex
  import IndexRoom
  import opened ImplicitQueue
  import opened QueueRuns
  import opened QueueAnswers
  import DC = DequeueCounters

  type Block = BlockIndex.Block

  // ---------------------------------------------------------------------------------------
  // Every block is where the bookkeeping has it

  ghost predicate HomeHolds(s: State, a: Aux, b: Block) {
    match a.Home(b)
    case Elsewhere => true
    case Pooled => b in s.pool
    case At(k) => k < |a.x.hold| && a.x.hold[k] == BlockIndex.Blk(b)
    case Closing(k, t) => k < |a.x.hold| && a.x.hold[k] == BlockIndex.Blk(b) && s.Look(t).Clearing? && s.Look(t).block == b
    case Held(t) => s.Look(t).Freeing? && s.Look(t).block == b
    case Produced => (s.producer.Reset? || s.producer.PutValue?) && s.producer.block == b
  }

  // `blocks` are all the blocks there are.
  ghost predicate Homed(s: State, a: Aux, blocks: set<Block>) {
    forall b :: HomeHolds(s, a, b) && (a.Home(b) == Elsewhere <==> b !in blocks)
  }

  // The slot of the next block is being filled.
  predicate Filling(p: Producer) {
    p.PutTail? || p.Requisition? || p.Rewind? || p.PutNull? || p.Reset? || p.PutValue?
  }

  ghost predicate StorageInv(s: State, a: Aux, blocks: set<Block>) {
    Homed(s, a, blocks) && IndexRoom.Accounts(s.ix, a.x, Filling(s.producer))
  }

  // A step after which block c has a new home and no other has.
  lemma Rehomed(s: State, a: Aux, s': State, a': Aux, blocks: set<Block>, c: Block)
    requires Homed(s, a, blocks) && c in blocks
    requires a'.home == a.home[c := a'.Home(c)] && a'.Home(c) != Elsewhere && HomeHolds(s', a', c)
    requires forall b | b != c :: HomeHolds(s, a, b) ==> HomeHolds(s', a', b)
    ensures Homed(s', a', blocks)
  {
    hide HomeHolds;
    forall b ensures HomeHolds(s', a', b) && (a'.Home(b) == Elsewhere <==> b !in blocks) {
      assert HomeHolds(s, a, b) && (a.Home(b) == Elsewhere <==> b !in blocks);
    }
  }

  // A step that moves no block, and no consumer holding one.
  lemma HomesKept(s: State, a: Aux, s': State, a': Aux, blocks: set<Block>)
    requires Homed(s, a, blocks) && a'.home == a.home && a'.x.hold == a.x.hold && s'.pool == s.pool
    requires forall t | s.Look(t).Clearing? || s.Look(t).Freeing? :: s'.Look(t) == s.Look(t)
    requires s.producer.Reset? || s.producer.PutValue? ==> s'.producer == s.producer
    ensures Homed(s', a', blocks)
  {
    forall b ensures HomeHolds(s', a', b) && (a'.Home(b) == Elsewhere <==> b !in blocks) {
      assert HomeHolds(s, a, b) && (a.Home(b) == Elsewhere <==> b !in blocks);
    }
  }

  lemma EmptiedHomes(s: State, a: Aux, t: Tid, blocks: set<Block>)
    requires Inv(s, a) && AtEnd(s, a, t) && Homed(s, a, blocks)
    ensures Homed(LookStep(s, t), Emptied(s, a, t), blocks)
  {
    hide BlockIndex.Inv, BlocksInv, OwnersInv, CellsInv, ProducerInv, TailBlockInv, CountersInv, Homed, HomeHolds;
    assert LookInv(s, a, t);
    EmptiedCounts(s, a, t);
    var s', a', b := LookStep(s, t), Emptied(s, a, t), s.look[t].block;
    if a'.home == a.home {
      HomesKept(s, a, s', a', blocks);
    } else {
      KnownBlock(s, a, b, blocks);
      forall c | c != b && HomeHolds(s, a, c) ensures HomeHolds(s', a', c) { OtherHome(s, a, s', a', t, c); }
      ClosingHome(s', a', b);
      Rehomed(s, a, s', a', blocks, b);
    }
  }

  lemma KnownBlock(s: State, a: Aux, b: Block, blocks: set<Block>)
    requires Homed(s, a, blocks) && a.Home(b) != Elsewhere
    ensures b in blocks
  {
  }

  // t, which holds no block, takes one that is not c.
  lemma OtherHome(s: State, a: Aux, s': State, a': Aux, t: Tid, c: Block)
    requires HomeHolds(s, a, c) && a'.Home(c) == a.Home(c) && s'.pool == s.pool && s'.producer == s.producer
    requires a'.x.hold == a.x.hold && (forall u | u != t :: s'.Look(u) == s.Look(u))
    requires !s.Look(t).Clearing? && !s.Look(t).Freeing?
    ensures HomeHolds(s', a', c)
  {
  }

  lemma ClosingHome(s: State, a: Aux, b: Block)
    requires a.Home(b).Closing? && a.Home(b).k < |a.x.hold| && a.x.hold[a.Home(b).k] == BlockIndex.Blk(b)
    requires s.Look(a.Home(b).t).Clearing? && s.Look(a.Home(b).t).block == b
    ensures HomeHolds(s, a, b)
  {
  }

  lemma ClearedHomes(s: State, a: Aux, t: Tid, blocks: set<Block>)
    requires Inv(s, a) && t in s.look && s.look[t].Clearing? && Homed(s, a, blocks)
    ensures Homed(LookStep(s, t), Cleared(s, a, t), blocks)
  {
    hide BlockIndex.Inv, BlocksInv, OwnersInv, CellsInv, ProducerInv, TailBlockInv, CountersInv, Homed;
    assert LookInv(s, a, t);
    var b := s.look[t].block;
    KnownBlock(s, a, b, blocks);
    Rehomed(s, a, LookStep(s, t), Cleared(s, a, t), blocks, b);
  }

  lemma FreedHomes(s: State, a: Aux, t: Tid, blocks: set<Block>)
    requires Inv(s, a) && t in s.look && s.look[t].Freeing? && Homed(s, a, blocks)
    ensures Homed(LookStep(s, t), Freed(s, a, t), blocks)
  {
    hide BlockIndex.Inv, BlocksInv, OwnersInv, CellsInv, ProducerInv, TailBlockInv, CountersInv, Homed;
    assert LookInv(s, a, t);
    var b := s.look[t].block;
    KnownBlock(s, a, b, blocks);
    Rehomed(s, a, LookStep(s, t), Freed(s, a, t), blocks, b);
  }

  lemma LookupHomes(s: State, a: Aux, t: Tid, blocks: set<Block>)
    requires Homed(s, a, blocks) && !s.Look(t).Clearing? && !s.Look(t).Freeing?
    requires s.Look(t).Reading? ==> s.Look(t).next < Stop(s.Look(t).first, s.Look(t).end)
    ensures Homed(LookStep(s, t), Anchored(s, a, t), blocks)
  {
    hide Homed, BlockIndex.FindSlot, TailBlockNumber;
    HomesKept(s, a, LookStep(s, t), Anchored(s, a, t), blocks);
  }

  lemma ClaimHomes(s: State, a: Aux, t: Tid, max: nat, blocks: set<Block>)
    requires Homed(s, a, blocks) && s.Look(t) == Done
    ensures Homed(CountStep(s, t, max), Claimed(s, a, t), blocks)
  {
    hide Homed, DC.Track, DC.ConsumerStep;
    HomesKept(s, a, CountStep(s, t, max), Claimed(s, a, t), blocks);
  }

  lemma ConsumerHomes(s: State, a: Aux, t: Tid, max: nat, blocks: set<Block>)
    requires Inv(s, a) && t in s.look && Homed(s, a, blocks)
    ensures Homed(ConsumerStep(s, t, max), TrackConsumer(s, a, t), blocks)
  {
    hide SharedInv, CountersInv, Anchored, Emptied, Cleared, Freed, Claimed, LookStep, CountStep, Homed;
    assert LookInv(s, a, t);
    match s.look[t] {
      case Done => ClaimHomes(s, a, t, max, blocks);
      case Reading(first, next, end, _, _, _) =>
        if next < Stop(first, end) {
          LookupHomes(s, a, t, blocks);
        } else {
          EmptiedHomes(s, a, t, blocks);
        }
      case Clearing(_, _, _, _, _) => ClearedHomes(s, a, t, blocks);
      case Freeing(_, _, _, _, _) => FreedHomes(s, a, t, blocks);
      case _ => LookupHomes(s, a, t, blocks);
    }
  }

  lemma TakenHomes(s: State, a: Aux, c: Choice, blocks: set<Block>)
    requires Inv(s, a) && s.producer.Requisition? && Homed(s, a, blocks)
    ensures s.ix.Shaped() && Homed(ProducerStep(s, c), TrackProducer(s, a, c), blocks)
  {
    hide BlockIndex.Inv, OwnersInv, CellsInv, TailBlockInv, CountersInv, LookInv, Homed;
    if c.found.Blk? && c.found.block in s.pool {
      KnownBlock(s, a, c.found.block, blocks);
      Rehomed(s, a, ProducerStep(s, c), Taken(s, a, c), blocks, c.found.block);
    } else {
      HomesKept(s, a, ProducerStep(s, c), a, blocks);
    }
  }

  lemma ResetHomes(s: State, a: Aux, c: Choice, blocks: set<Block>)
    requires Inv(s, a) && s.producer.Reset? && Homed(s, a, blocks)
    ensures s.ix.Shaped() && Homed(ProducerStep(s, c), TrackProducer(s, a, c), blocks)
  {
    hide BlockIndex.Inv, BlocksInv, OwnersInv, CellsInv, TailBlockInv, CountersInv, LookInv, Homed;
    KnownBlock(s, a, s.producer.block, blocks);
    Rehomed(s, a, ProducerStep(s, c), TrackProducer(s, a, c), blocks, s.producer.block);
  }

  lemma InstalledHomes(s: State, a: Aux, c: Choice, blocks: set<Block>)
    requires Inv(s, a) && s.producer.PutValue? && Homed(s, a, blocks)
    ensures s.ix.Shaped() && Homed(ProducerStep(s, c), TrackProducer(s, a, c), blocks)
  {
    hide BlocksInv, OwnersInv, CellsInv, TailBlockInv, CountersInv, LookInv, Homed, BlockIndex.CurrentInv;
    KnownBlock(s, a, s.producer.block, blocks);
    Rehomed(s, a, ProducerStep(s, c), TrackProducer(s, a, c), blocks, s.producer.block);
  }

  lemma ProducerHomes(s: State, a: Aux, c: Choice, blocks: set<Block>)
    requires Inv(s, a) && Homed(s, a, blocks)
    ensures s.ix.Shaped() && Homed(ProducerStep(s, c), TrackProducer(s, a, c), blocks)
  {
    hide BlockIndex.Inv, CountersInv, BlocksInv, OwnersInv, CellsInv, TailBlockInv, LookInv, Homed, ProducerStep, TrackProducer;
    match s.producer {
      case Requisition(_, _) => TakenHomes(s, a, c, blocks);
      case Reset(_, _, _) => ResetHomes(s, a, c, blocks);
      case PutValue(_, _, _) => InstalledHomes(s, a, c, blocks);
      case _ =>
        MovesNoBlock(s, a, c);
        HomesKept(s, a, ProducerStep(s, c), TrackProducer(s, a, c), blocks);
    }
  }

  lemma MovesNoBlock(s: State, a: Aux, c: Choice)
    requires s.ix.Shaped() && !s.producer.Requisition? && !s.producer.Reset? && !s.producer.PutValue?
    ensures ProducerStep(s, c).pool == s.pool && ProducerStep(s, c).look == s.look
    ensures TrackProducer(s, a, c).home == a.home && TrackProducer(s, a, c).x.hold == a.x.hold
  {
    hide BlockIndex.Grow, BlockIndex.HasRoom, BlockIndex.StoreKey, BlockIndex.StoreTail, BlockIndex.StoreValue, BlockIndex.Roomy;
  }

  // ---------------------------------------------------------------------------------------
  // Every slot is accounted for

  // Only a consumer that releases a block touches the index.
  lemma ReadsTheIndex(s: State, a: Aux, t: Tid, max: nat)
    requires !s.Look(t).Clearing?
    ensures var s' := ConsumerStep(s, t, max); s'.ix == s.ix && s'.producer == s.producer && TrackConsumer(s, a, t).x == a.x
  {
    hide DC.ConsumerStep, DC.Track, BlockIndex.FindSlot, Onward, TailBlockNumber, Without, Stop;
  }

  lemma ConsumerAccounts(s: State, a: Aux, t: Tid, max: nat)
    requires Inv(s, a) && t in s.look && IndexRoom.Accounts(s.ix, a.x, Filling(s.producer))
    ensures var s' := ConsumerStep(s, t, max); IndexRoom.Accounts(s'.ix, TrackConsumer(s, a, t).x, Filling(s'.producer))
  {
    hide BlockIndex.Inv, BlocksInv, OwnersInv, CellsInv, ProducerInv, TailBlockInv, CountersInv, IndexRoom.Accounts;
    if s.look[t].Clearing? {
      assert LookInv(s, a, t);
      ClearedEntry(s, a, t);
      IndexRoom.ReleaseAccounts(s.ix, a.x, Ahead(s.producer), a.Home(s.look[t].block).k, Filling(s.producer));
    } else {
      ReadsTheIndex(s, a, t, max);
    }
  }

  lemma SlidAccounts(x: BlockIndex.Index, a: BlockIndex.Aux, lo: nat, filling: bool)
    requires IndexRoom.Accounts(x, a, filling)
    ensures IndexRoom.Accounts(x, a.(lo := lo), filling)
  {
    forall k | |a.entry| - |x.Current().index| + (if filling then 1 else 0) <= k < |a.entry|
      ensures IndexRoom.Accounted(x, a.(lo := lo), k)
    {
      assert IndexRoom.Accounted(x, a, k);
    }
  }

  lemma ProducerAccounts(s: State, a: Aux, c: Choice)
    requires Inv(s, a) && IndexRoom.Accounts(s.ix, a.x, Filling(s.producer))
    ensures s.ix.Shaped()
    ensures var s' := ProducerStep(s, c); IndexRoom.Accounts(s'.ix, TrackProducer(s, a, c).x, Filling(s'.producer))
  {
    hide BlockIndex.Inv, BlocksInv, OwnersInv, CellsInv, TailBlockInv, CountersInv, LookInv, IndexRoom.Accounts, BlockIndex.Grow, BlockIndex.Doubled, BlockIndex.Inserted, BlockIndex.HasRoom, BlockIndex.Roomy;
    var x := s.ix;
    match s.producer {
      case Check(_) => SlidAccounts(x, a.x, a.x.lo + 1, false);
      case Growing(_) => IndexRoom.GrownAccounts(x, a.x);
      case PutKey(_, _, e) => IndexRoom.KeyAccounts(x, a.x, e, s.counters.tail);
      case PutTail(_, slot, _) => IndexRoom.TailAccounts(x, a.x, slot, true);
      case Rewind(_) => IndexRoom.TailAccounts(x, a.x, (x.Current().tail - 1) % |x.Current().index|, true);
      case PutNull(_) => IndexRoom.NullAccounts(x, a.x);
      case PutValue(_, _, b) => IndexRoom.ValueAccounts(x, a.x, b);
      case _ =>
    }
  }

  lemma {:induction false} RunStorage(s: State, a: Aux, events: seq<Event>, s': State, blocks: set<Block>) returns (a': Aux)
    requires Inv(s, a) && HistoryInv(s, a) && StorageInv(s, a, blocks) && Run(s, events, s') && AllAsk(events)
    ensures Inv(s', a') && HistoryInv(s', a') && StorageInv(s', a', blocks)
    decreases |events|
  {
    hide ImplicitQueue.Inv, HistoryInv, Homed, IndexRoom.Accounts, TrackConsumer, TrackProducer, ConsumerStep, ProducerStep;
    if events == [] {
      a' := a;
    } else {
      assert AsksForSome(events[0]) && AllAsk(events[1..]);
      match events[0] {
        case Produce(c) =>
          ProducerInvStep(s, a, c);
          HistoryProducer(s, a, c);
          ProducerHomes(s, a, c, blocks);
          ProducerAccounts(s, a, c);
          a' := RunStorage(ProducerStep(s, c), TrackProducer(s, a, c), events[1..], s', blocks);
        case Consume(t, max) =>
          ConsumerInv(s, a, t, max);
          HistoryConsumer(s, a, t, max);
          ConsumerHomes(s, a, t, max, blocks);
          ConsumerAccounts(s, a, t, max);
          a' := RunStorage(ConsumerStep(s, t, max), TrackConsumer(s, a, t), events[1..], s', blocks);
      }
    }
  }

  lemma Books(s0: State, events: seq<Event>, s: State) returns (a: Aux)
    requires Init(s0) && AllAsk(events) && Run(s0, events, s)
    ensures Inv(s, a) && HistoryInv(s, a) && StorageInv(s, a, s0.pool)
  {
    hide ImplicitQueue.Inv, HistoryInv, Run, IndexRoom.Accounts;
    var a0 := InitInv(s0);
    IndexRoom.FirstAccounts();
    a := RunStorage(s0, a0, events, s, s0.pool);
  }

  // ---------------------------------------------------------------------------------------
  // With all consumers at rest

  // A block is in the index exactly when one of its indices is at or beyond the head.
  lemma RestBlock(s: State, a: Aux, blocks: set<Block>, k: nat)
    requires Inv(s, a) && HistoryInv(s, a) && Homed(s, a, blocks) && AllRest(s) && k < |a.x.hold|
    ensures a.x.hold[k].Blk? <==> (k + 1) * BlockIndex.BLOCK_SIZE > s.counters.head
    ensures a.x.hold[k].Blk? ==> a.Home(a.x.hold[k].block) == At(k)
  {
    hide BlockIndex.Inv, CellsInv, ProducerInv, TailBlockInv, CountersInv, LookInv;
    var last := (k + 1) * BlockIndex.BLOCK_SIZE - 1;
    InItsBlock(last);
    if a.x.hold[k].Blk? {
      var b := a.x.hold[k].block;
      assert InUse(k, a.Home(b), s.Dequeued(b), a.gone[k]) && HomeHolds(s, a, b);
      AllDone(s);
      RangeSize(k * BlockIndex.BLOCK_SIZE, (k + 1) * BlockIndex.BLOCK_SIZE);
      assert a.Home(b) == At(k) && |a.gone[k]| < |Indices(k)|;
      if Indices(k) <= a.gone[k] { SubsetSize(Indices(k), a.gone[k]); }
      var i :| i in Indices(k) && i !in a.gone[k];
      InItsBlock(i);
      RestGone(s, a, i);
    } else {
      assert last in a.gone[k];
    }
  }

  lemma AllDone(s: State)
    requires AllRest(s)
    ensures forall t :: s.Look(t) == Done
  {
    forall t ensures s.Look(t) == Done { assert t in s.look ==> AtRest(s, t); }
  }

  lemma RestGone(s: State, a: Aux, i: nat)
    requires HistoryInv(s, a) && AllRest(s)
    ensures i < s.counters.head ==> Gone(a, i)
  {
    AllDone(s);
  }

  // When a new block is due, the index has room exactly if at most one block less than it has
  // slots for is queued.
  lemma RoomAtRest(s: State)
    requires Reachable(s) && AllRest(s) && s.producer.Check?
    ensures s.ix.Shaped()
    ensures BlockIndex.HasRoom(s.ix) <==>
      s.counters.tail - s.counters.head <= BlockIndex.BLOCK_SIZE * (|s.ix.Current().index| - 1)
  {
    hide BlocksInv, OwnersInv, CellsInv, TailBlockInv, LookInv, DC.Inv, HistoryInv, Homed, Run, Init, AllRest, BlockIndex.HasRoom, IndexRoom.Accounts, BlockIndex.HeadersInv, BlockIndex.CurrentInv;
    var s0, events :| Init(s0) && AllAsk(events) && Run(s0, events, s);
    var a := Books(s0, events, s);
    IndexRoom.RoomExactly(s.ix, a.x);
    var k := |a.x.entry| - |s.ix.Current().index|;
    if k >= 0 { RestBlock(s, a, s0.pool, k); }
  }

  // The blocks in the index, oldest first.
  ghost function Live(a: Aux, lo: nat): seq<Block>
    requires lo <= |a.x.hold| && forall k | lo <= k < |a.x.hold| :: a.x.hold[k].Blk?
  {
    seq(|a.x.hold| - lo, i requires 0 <= i < |a.x.hold| - lo => a.x.hold[lo + i].block)
  }

  ghost predicate LiveFrom(a: Aux, lo: nat) {
    && lo <= |a.x.hold|
    && (forall k | 0 <= k < |a.x.hold| :: a.x.hold[k].Blk? <==> lo <= k)
    && (forall k | lo <= k < |a.x.hold| :: a.Home(a.x.hold[k].block) == At(k))
  }

  lemma LiveDistinct(a: Aux, lo: nat)
    requires LiveFrom(a, lo)
    ensures Distinct(Live(a, lo)) && |Live(a, lo)| == |a.x.hold| - lo
  {
    var live := Live(a, lo);
    forall i, j | 0 <= i < j < |live| ensures live[i] != live[j] {
      assert a.Home(live[i]) == At(lo + i) && a.Home(live[j]) == At(lo + j);
    }
  }

  lemma AllBlocks(s: State, a: Aux, blocks: set<Block>, lo: nat)
    requires Homed(s, a, blocks) && BlocksInv(s, a) && LiveFrom(a, lo) && AllRest(s) && s.producer == Resting
    ensures Elements(Live(a, lo)) !! s.pool && Elements(Live(a, lo)) + s.pool == blocks
  {
    AllDone(s);
    var live := Live(a, lo);
    forall b ensures b in live <==> a.Home(b).At? {
      assert HomeHolds(s, a, b);
      if a.Home(b).At? {
        assert b == live[a.Home(b).k - lo];
      }
    }
    forall b ensures b in blocks <==> b in live || b in s.pool {
      assert HomeHolds(s, a, b) && (a.Home(b) == Elsewhere <==> b !in blocks);
    }
  }

  // No block is lost: with nothing under way, what is not available again is exactly one block
  // for each block number from that of the head index to the last one begun.
  lemma BlocksConserved(s0: State, events: seq<Event>, s: State)
    requires Init(s0) && AllAsk(events) && Run(s0, events, s) && AllRest(s) && s.producer == Resting
    ensures s.pool <= s0.pool
    ensures |s0.pool| == |s.pool| + Needed(s.counters.tail) - BlockOf(s.counters.head)
  {
    hide OwnersInv, CellsInv, TailBlockInv, LookInv, DC.Inv, HistoryInv, Homed, Run, Init, AllRest, BlocksInv, IndexRoom.Accounts, BlockIndex.HeadersInv, BlockIndex.CurrentInv;
    var a := Books(s0, events, s);
    var lo := BlockOf(s.counters.head);
    HeadBelowTail(s, a);
    forall k: nat | k < |a.x.hold|
      ensures a.x.hold[k].Blk? <==> lo <= k
      ensures lo <= k ==> a.Home(a.x.hold[k].block) == At(k)
    {
      RestBlock(s, a, s0.pool, k);
    }
    LiveDistinct(a, lo);
    AllBlocks(s, a, s0.pool, lo);
    DistinctSize(Live(a, lo));
    UnionSize(Elements(Live(a, lo)), s.pool);
  }

  // ---------------------------------------------------------------------------------------
  // Capacities

  // Header j has 2^(5 + j) slots.
  ghost predicate Doubling(x: BlockIndex.Index) {
    forall j | 0 <= j < |x.headers| :: |x.headers[j].index| == RingSizing.Pow2(5 + j)
  }

  lemma DoublingStep(s: State, e: Event)
    requires Enabled(s, e) && Doubling(s.ix)
    ensures Doubling(Step(s, e).ix)
  {
    hide ConsumerStep, ProducerStep, BlockIndex.Grow;
    match e {
      case Consume(t, max) => ConsumerHeaders(s, t, max);
      case Produce(c) =>
        ProducerHeaders(s, c);
        if s.producer.Growing? { GrowDoubles(s.ix); }
    }
  }

  lemma ConsumerHeaders(s: State, t: Tid, max: nat)
    ensures ConsumerStep(s, t, max).ix.headers == s.ix.headers
  {
    hide DC.ConsumerStep, BlockIndex.FindSlot, Onward, Stop;
  }

  ghost predicate SameEntries(x: BlockIndex.Index, x': BlockIndex.Index) {
    |x'.headers| == |x.headers| && forall j | 0 <= j < |x.headers| :: x'.headers[j].index == x.headers[j].index
  }

  lemma StoresKeep(x: BlockIndex.Index, e: BlockIndex.Entry, base: int, v: BlockIndex.Value, tail: nat)
    requires x.Shaped()
    ensures SameEntries(x, BlockIndex.StoreKey(x, e, base)) && SameEntries(x, BlockIndex.StoreValue(x, e, v))
    ensures SameEntries(x, BlockIndex.StoreTail(x, tail)) && SameEntries(x, x)
  {
  }

  // Each header keeps its entries, except that a larger one may be added.
  lemma ProducerHeaders(s: State, c: Choice)
    requires s.ix.Shaped()
    ensures var x := ProducerStep(s, c).ix; if s.producer.Growing? then x == BlockIndex.Grow(s.ix) else SameEntries(s.ix, x)
  {
    hide BlockIndex.HasRoom, BlockIndex.Grow, BlockIndex.StoreKey, BlockIndex.StoreValue, BlockIndex.StoreTail, SameEntries;
    var x := s.ix;
    StoresKeep(x, 0, 0, BlockIndex.Null, 0);
    match s.producer {
      case PutKey(_, _, e) => StoresKeep(x, e, s.counters.tail, BlockIndex.Null, 0);
      case PutTail(_, slot, _) => StoresKeep(x, 0, 0, BlockIndex.Null, slot);
      case Rewind(_) => StoresKeep(x, 0, 0, BlockIndex.Null, (x.Current().tail - 1) % |x.Current().index|);
      case PutNull(e) => StoresKeep(x, e, 0, BlockIndex.Null, 0);
      case PutValue(_, e, b) => StoresKeep(x, e, 0, BlockIndex.Blk(b), 0);
      case _ =>
    }
  }

  lemma GrowDoubles(x: BlockIndex.Index)
    requires x.Shaped() && Doubling(x)
    ensures Doubling(BlockIndex.Grow(x))
  {
    hide BlockIndex.Grown;
    BlockIndex.GrownSize(x);
  }

  lemma {:induction false} DoublingRun(s: State, events: seq<Event>, s': State)
    requires Doubling(s.ix) && Run(s, events, s')
    ensures Doubling(s'.ix)
    decreases |events|
  {
    hide Doubling, Step, Enabled;
    if events != [] {
      DoublingStep(s, events[0]);
      DoublingRun(Step(s, events[0]), events[1..], s');
    }
  }

  // The capacities are powers of two, so masking a slot number with the capacity minus one is
  // taking its remainder.
  lemma MaskIsSlot(s: State, j: nat, slot: nat)
    requires Reachable(s) && j < |s.ix.headers|
    ensures var c := |s.ix.headers[j].index|; c == 32 * RingSizing.Pow2(j) && RingSizing.And(slot, c - 1) == slot % c
  {
    hide Run, AllAsk;
    var s0, events :| Init(s0) && AllAsk(events) && Run(s0, events, s);
    FirstDoubles();
    DoublingRun(s0, events, s);
    RingSizing.MaskIsRemainder(slot, 5 + j);
    RingSizing.PowSplit(5, j);
  }

  lemma FirstDoubles()
    ensures Doubling(BlockIndex.First()) && RingSizing.Pow2(5) == 32
  {
    assert RingSizing.Pow2(3) == 8;
  }

  // ---------------------------------------------------------------------------------------
  // The producer alone

  // n steps of the producer lead from s to s'; strictly between them it is in its enqueue.
  ghost predicate Enqueues(s: State, c: Choice, n: nat, s': State)
    decreases n
  {
    && n > 0 && s.ix.Shaped()
    && var m := ProducerStep(s, c);
       if n == 1 then s' == m else m.producer != Resting && Enqueues(m, c, n - 1, s')
  }

  lemma {:induction false} EnqueuesOn(s: State, c: Choice, j: nat, m: State, n: nat, s': State)
    requires Enqueues(s, c, j, m) && m.producer != Resting && Enqueues(m, c, n, s')
    ensures Enqueues(s, c, j + n, s')
    decreases j
  {
    hide ProducerStep;
    if j > 1 { EnqueuesOn(ProducerStep(s, c), c, j - 1, m, n, s'); }
  }

  lemma Produces(s: State, c: Choice) returns (s': State)
    requires Reachable(s)
    ensures s.ix.Shaped() && s' == ProducerStep(s, c) && Enqueues(s, c, 1, s') && Reachable(s')
  {
    hide ProducerStep, Reachable, CountersInv, BlocksInv, OwnersInv, CellsInv, TailBlockInv, LookInv, HistoryInv;
    var a := ReachableInv(s);
    ReachableStep(s, Produce(c));
    s' := ProducerStep(s, c);
  }

  // What the consumers and the history of deliveries see of an enqueue.
  ghost predicate Outcome(s: State, s': State, items: seq<Item>, pool: set<Block>) {
    && s'.producer == Resting && s'.items == items && s'.pool == pool
    && s'.counters == s.counters.(tail := |items|) && s'.look == s.look && s'.got == s.got
  }

  lemma Writes(s: State, c: Choice) returns (s': State)
    requires Reachable(s) && s.producer.Write? && s.counters.tail == |s.items|
    ensures Enqueues(s, c, 2, s') && Reachable(s') && Outcome(s, s', s.items + [s.producer.item], s.pool)
  {
    hide Reachable, Enqueues;
    var s1 := Produces(s, c);
    s' := Produces(s1, c);
    EnqueuesOn(s, c, 1, s1, 1, s');
  }

  lemma Installs(s: State, c: Choice) returns (n: nat, s': State)
    requires Reachable(s) && s.producer.PutKey? && s.counters.tail == |s.items|
    ensures Enqueues(s, c, n, s') && Reachable(s')
    ensures if c.found.Blk? && c.found.block in s.pool
            then Outcome(s, s', s.items + [s.producer.item], s.pool - {c.found.block})
            else Outcome(s, s', s.items, s.pool)
  {
    hide Reachable, Enqueues, BlockIndex.StoreKey, BlockIndex.StoreTail, BlockIndex.StoreValue, BlockIndex.Grow, BlockIndex.HasRoom;
    var s1 := Produces(s, c);
    var s2 := Produces(s1, c);
    EnqueuesOn(s, c, 1, s1, 1, s2);
    var s3 := Produces(s2, c);
    EnqueuesOn(s, c, 2, s2, 1, s3);
    var s4 := Produces(s3, c);
    EnqueuesOn(s, c, 3, s3, 1, s4);
    var s5 := Produces(s4, c);
    EnqueuesOn(s, c, 4, s4, 1, s5);
    n, s' := 5, s5;
    if c.found.Blk? && c.found.block in s.pool {
      s' := Writes(s5, c);
      EnqueuesOn(s, c, 5, s5, 2, s');
      n := 7;
    }
  }

  // Whether an enqueue can go on to its element: no new block is due, or there is a slot in
  // the index, now or after doubling it, and a block to be had.
  predicate CanEnqueue(s: State, c: Choice)
    requires s.ix.Shaped()
  {
    || s.counters.tail % BlockIndex.BLOCK_SIZE != 0
    || (&& (s.counters.tail - s.counters.head <= BlockIndex.BLOCK_SIZE * (|s.ix.Current().index| - 1) || c.mayGrow)
        && c.found.Blk? && c.found.block in s.pool)
  }

  // With all consumers at rest, an enqueue appends its element exactly when it can; otherwise
  // everything the consumers see is as before.
  lemma EnqueueAnswers(s: State, c: Choice) returns (n: nat, s': State)
    requires Reachable(s) && AllRest(s) && s.producer == Resting
    ensures s.ix.Shaped() && Enqueues(s, c, n, s') && Reachable(s')
    ensures if CanEnqueue(s, c)
            then Outcome(s, s', s.items + [c.item], if s.counters.tail % BlockIndex.BLOCK_SIZE == 0 then s.pool - {c.found.block} else s.pool)
            else Outcome(s, s', s.items, s.pool)
  {
    hide Reachable, Enqueues, BlockIndex.HasRoom, BlockIndex.Grow;
    RestBalance(s);
    var s1 := Produces(s, c);
    if s1.producer.Write? {
      s' := Writes(s1, c);
      EnqueuesOn(s, c, 1, s1, 2, s');
      n := 3;
    } else {
      StillRests(s, s1);
      RoomAtRest(s1);
      var s2 := Produces(s1, c);
      EnqueuesOn(s, c, 1, s1, 1, s2);
      n, s' := 2, s2;
      if s2.producer.Growing? {
        s' := Produces(s2, c);
        EnqueuesOn(s, c, 2, s2, 1, s');
        n := 3;
      }
      if s'.producer.PutKey? {
        var j, e := Installs(s', c);
        EnqueuesOn(s, c, n, s', j, e);
        n, s' := n + j, e;
      }
    }
  }

  lemma StillRests(s: State, s': State)
    requires AllRest(s) && s'.look == s.look && s'.counters.pc == s.counters.pc
    ensures AllRest(s')
  {
    forall t | t in s'.look ensures AtRest(s', t) { assert AtRest(s, t); }
  }
}
