/**
 One implicit producer of the lock-free queue and any number of consumers.

 The producer inserts blocks into the block index, fills them and publishes `tailIndex`.
 Consumers claim indices through the counters of DequeueCounters, look their blocks up in the
 index, read the elements, and release each block when its last element is gone. Every access
 to a shared variable is one step.
 */
module ImplicitQueue {
  import opened Modular
  import opened Sums
  import opened BlockIndex
  import DC = DequeueCounters

  type Tid = nat
  type Item = int

  // ---------------------------------------------------------------------------------------
  // States

  datatype Producer =
    | Resting
    | Check(item: Item)                                // insert_block_index_entry's test
    | Growing(item: Item)                              // new_block_index
    | PutKey(item: Item, slot: nat, entry: Entry)
    | PutTail(item: Item, slot: nat, entry: Entry)
    | Requisition(item: Item, entry: Entry)
    | Rewind(entry: Entry)                             // rewind_block_index_tail
    | PutNull(entry: Entry)
    | Reset(item: Item, entry: Entry, block: Block)    // reset_empty
    | PutValue(item: Item, entry: Entry, block: Block)
    | Write(item: Item)
    | Publish(item: Item)

  // A consumer working off the claimed indices first .. end - 1.
  datatype Look =
    | Done
    | AtHeader(first: nat, end: nat)
    | AtTail(first: nat, end: nat, header: nat)
    | AtKey(first: nat, end: nat, header: nat, tail: nat)
    | AtValue(first: nat, end: nat, header: nat, slot: nat)
    | Reading(first: nat, next: nat, end: nat, header: nat, slot: nat, block: Block)
    | Clearing(next: nat, end: nat, header: nat, slot: nat, block: Block)
    | Freeing(next: nat, end: nat, header: nat, slot: nat, block: Block)
    | Fault                                            // a null block was dereferenced

  datatype Delivery = Delivery(t: Tid, index: nat, item: Item)

  datatype State = State(
    counters: DC.State,
    ix: Index,
    dequeued: map<Block, nat>,            // elementsCompletelyDequeued
    cells: map<(Block, nat), Item>,
    pool: set<Block>,                     // blocks a requisition may return
    tailBlock: Block,
    producer: Producer,
    look: map<Tid, Look>,
    items: seq<Item>,                     // history: what was enqueued
    got: seq<Delivery>)                   // history: what was dequeued
  {
    function Look(t: Tid): Look { if t in look then look[t] else Done }
    function Dequeued(b: Block): nat { if b in dequeued then dequeued[b] else 0 }
    function Cell(b: Block, i: nat): Item { if (b, i) in cells then cells[(b, i)] else 0 }
  }

  // ---------------------------------------------------------------------------------------
  // Consumer steps

  function BlockOf(i: nat): nat { i / BLOCK_SIZE }

  // The end of the run of claimed indices in first's block.
  function Stop(first: nat, end: nat): nat {
    if end < (BlockOf(first) + 1) * BLOCK_SIZE then end else (BlockOf(first) + 1) * BLOCK_SIZE
  }

  // After a block: on to the next slot, or finished.
  function Onward(next: nat, end: nat, header: nat, slot: nat, capacity: nat): Look {
    if next == end || capacity == 0 then Done else AtValue(next, end, header, (slot + 1) % capacity)
  }

  function Capacity(x: Index, j: nat): nat {
    if j < |x.headers| then |x.headers[j].index| else 0
  }

  function TailOf(x: Index, j: nat): nat {
    if j < |x.headers| then x.headers[j].tail else 0
  }

  // The entry at a slot of a header; headers and slots out of range do not occur.
  function EntryAt(x: Index, j: nat, slot: nat): Entry {
    if j < |x.headers| && slot < |x.headers[j].index| then x.headers[j].index[slot] else 0
  }

  function LookStep(s: State, t: Tid): State {
    match s.Look(t)
    case AtHeader(first, end) =>
      s.(look := s.look[t := AtTail(first, end, if s.ix.headers == [] then 0 else |s.ix.headers| - 1)])
    case AtTail(first, end, h) =>
      s.(look := s.look[t := AtKey(first, end, h, TailOf(s.ix, h))])
    case AtKey(first, end, h, tail) =>
      var c := Capacity(s.ix, h);
      s.(look := s.look[t :=
        if c == 0 then Fault
        else AtValue(first, end, h, FindSlot(tail, s.ix.Key(EntryAt(s.ix, h, tail)), BlockOf(first) * BLOCK_SIZE, c))])
    case AtValue(first, end, h, slot) =>
      (match s.ix.Value(EntryAt(s.ix, h, slot))
       case Blk(b) => s.(look := s.look[t := Reading(first, first, end, h, slot, b)])
       case _ => s.(look := s.look[t := Fault]))
    case Reading(first, next, end, h, slot, b) =>
      var stop := Stop(first, end);
      if next < stop then
        s.(look := s.look[t := Reading(first, next + 1, end, h, slot, b)],
           got := s.got + [Delivery(t, next, s.Cell(b, next % BLOCK_SIZE))])
      else
        // set_empty / set_many_empty
        var n := s.Dequeued(b) + (if stop < first then 0 else stop - first);
        s.(dequeued := s.dequeued[b := n],
           look := s.look[t := if n == BLOCK_SIZE then Clearing(stop, end, h, slot, b)
                               else Onward(stop, end, h, slot, Capacity(s.ix, h))])
    case Clearing(next, end, h, slot, b) =>
      s.(ix := StoreValue(s.ix, EntryAt(s.ix, h, slot), Null),
         look := s.look[t := Freeing(next, end, h, slot, b)])
    case Freeing(next, end, h, slot, b) =>
      s.(pool := s.pool + {b}, look := s.look[t := Onward(next, end, h, slot, Capacity(s.ix, h))])
    case _ => s
  }

  // A step on the counters. The last one, which advances headIndex, starts the lookup.
  function CountStep(s: State, t: Tid, max: nat): State {
    var s1 := s.(counters := DC.ConsumerStep(s.counters, t, max));
    if s.counters.Pc(t).Take? then
      s1.(look := s.look[t := AtHeader(s.counters.head, s1.counters.head)])
    else s1
  }

  function ConsumerStep(s: State, t: Tid, max: nat): State {
    if s.Look(t).Done? then CountStep(s, t, max) else LookStep(s, t)
  }

  // ---------------------------------------------------------------------------------------
  // Producer steps

  // What the environment decides: the next element to enqueue, whether the index may grow,
  // and the block a requisition finds, if any.
  datatype Choice = Choice(item: Item, mayGrow: bool, found: Value)

  function ProducerStep(s: State, c: Choice): State
    requires s.ix.Shaped()
  {
    match s.producer
    case Resting =>
      s.(producer := if s.counters.tail % BLOCK_SIZE == 0 then Check(c.item) else Write(c.item))
    case Check(item) =>
      s.(producer := if HasRoom(s.ix) then PutKey(item, s.ix.NextSlot(), s.ix.NextEntry())
                     else if c.mayGrow then Growing(item) else Resting)
    case Growing(item) =>
      var ix := Grow(s.ix);
      s.(ix := ix, producer := PutKey(item, ix.NextSlot(), ix.NextEntry()))
    case PutKey(item, slot, e) =>
      s.(ix := StoreKey(s.ix, e, s.counters.tail), producer := PutTail(item, slot, e))
    case PutTail(item, slot, e) =>
      s.(ix := StoreTail(s.ix, slot), producer := Requisition(item, e))
    case Requisition(item, e) =>
      if c.found.Blk? && c.found.block in s.pool then
        s.(pool := s.pool - {c.found.block}, producer := Reset(item, e, c.found.block))
      else s.(producer := Rewind(e))
    case Rewind(e) =>
      s.(ix := StoreTail(s.ix, (s.ix.Current().tail - 1) % |s.ix.Current().index|), producer := PutNull(e))
    case PutNull(e) => s.(ix := StoreValue(s.ix, e, Null), producer := Resting)
    case Reset(item, e, b) => s.(dequeued := s.dequeued[b := 0], producer := PutValue(item, e, b))
    case PutValue(item, e, b) =>
      s.(ix := StoreValue(s.ix, e, Blk(b)), tailBlock := b, producer := Write(item))
    case Write(item) =>
      s.(cells := s.cells[(s.tailBlock, s.counters.tail % BLOCK_SIZE) := item], producer := Publish(item))
    case Publish(item) =>
      s.(counters := DC.Publish(s.counters, 1), items := s.items + [item], producer := Resting)
  }

  // ---------------------------------------------------------------------------------------
  // The invariant

  // Where a block is: available, holding block number k, emptied and about to be taken out of
  // the index by t, taken out by t, or with the producer.
  datatype Home = Elsewhere | Pooled | At(k: nat) | Closing(k: nat, t: Tid) | Held(t: Tid) | Produced

  // The bookkeeping of the proof: that of the counters and of the index, each block's home,
  // the indices of each block number already emptied, the consumer of each claimed index not
  // yet emptied, the block number whose key a consumer at AtKey will read, and whether the
  // next slot has been offered to consumers although its block was not inserted.
  datatype Aux = Aux(
    counters: DC.Aux,
    x: BlockIndex.Aux,
    home: map<Block, Home>,
    gone: seq<set<int>>,
    owner: map<int, Tid>,
    anchor: map<Tid, nat>,
    offered: bool)
  {
    function Home(b: Block): Home { if b in home then home[b] else Elsewhere }
    function Anchor(t: Tid): nat { if t in anchor then anchor[t] else 0 }
  }

  // The indices of block number k.
  function Indices(k: nat): set<int> {
    Range(k * BLOCK_SIZE, (k + 1) * BLOCK_SIZE)
  }

  // A block number in the index: its block is in use, or has been emptied and is closing.
  ghost predicate InUse(k: nat, home: Home, dequeued: nat, gone: set<int>) {
    || (home == At(k) && dequeued == |gone| < BLOCK_SIZE)
    || (home.Closing? && home.k == k && gone == Indices(k))
  }

  ghost predicate BlocksInv(s: State, a: Aux) {
    && |a.gone| == |a.x.hold|
    && (forall k | 0 <= k < |a.gone| :: a.gone[k] <= Indices(k))
    && (forall k | 0 <= k < |a.gone| && a.x.hold[k].Blk? ::
          var b := a.x.hold[k].block; InUse(k, a.Home(b), s.Dequeued(b), a.gone[k]))
    && (forall k | 0 <= k < |a.gone| && !a.x.hold[k].Blk? :: a.gone[k] == Indices(k))
    && (forall b | b in s.pool :: a.Home(b) == Pooled)
  }

  // Claimed and emptied indices lie below the head index, and none is both.
  ghost predicate OwnersInv(a: Aux, head: nat) {
    && (forall i | i in a.owner :: 0 <= i < head && BlockOf(i) < |a.gone| && i !in a.gone[BlockOf(i)])
    && (forall k, i | 0 <= k < |a.gone| && i in a.gone[k] :: i < head)
  }

  // Every enqueued element not yet emptied is in its block's cell.
  ghost predicate CellsInv(s: State, a: Aux) {
    && |a.gone| == |a.x.hold|
    && |s.items| <= |a.x.hold| * BLOCK_SIZE
    && (forall i | 0 <= i < |s.items| ::
          BlockOf(i) < |a.gone| && (i in a.gone[BlockOf(i)] || InCell(s, a.x.hold[BlockOf(i)], i)))
  }

  ghost predicate InCell(s: State, v: Value, i: nat) {
    i < |s.items| && v.Blk? && s.Cell(v.block, i % BLOCK_SIZE) == s.items[i]
  }

  predicate Ahead(p: Producer) {
    p.Requisition? || p.Rewind? || p.Reset? || p.PutValue?
  }

  // The number of blocks the first `tail` indices need.
  function Needed(tail: nat): nat {
    (tail + BLOCK_SIZE - 1) / BLOCK_SIZE
  }

  // The next block's slot and entry, as the producer remembers them.
  ghost predicate AtNext(x: Index, a: BlockIndex.Aux, slot: nat, e: Entry) {
    && x.Shaped() && |a.offset| == |x.headers|
    && slot == Slot(a.offset[x.Last()], |a.entry|, |x.Current().index|)
    && e == NextOf(x, a)
  }

  ghost predicate ProducerInv(s: State, a: Aux) {
    var n, tail := |a.x.entry|, s.counters.tail;
    && s.ix.Shaped() && |a.x.offset| == |s.ix.headers|
    && (if s.producer.Write? || s.producer.Publish? then n == BlockOf(tail) + 1 else n == Needed(tail))
    && (a.offered ==> tail == n * BLOCK_SIZE && Keyed(s.ix, a.x))
    && match s.producer
       case Resting => a.offered ==> s.ix.Value(NextOf(s.ix, a.x)) == Null
       case Check(_) => tail == n * BLOCK_SIZE && (a.offered ==> s.ix.Value(NextOf(s.ix, a.x)) == Null)
       case Growing(_) => tail == n * BLOCK_SIZE && !a.offered
       case PutKey(_, slot, e) => tail == n * BLOCK_SIZE && Roomy(s.ix, a.x) && AtNext(s.ix, a.x, slot, e)
       case PutTail(_, slot, e) => tail == n * BLOCK_SIZE && Keyed(s.ix, a.x) && AtNext(s.ix, a.x, slot, e)
       case Requisition(_, e) => a.offered && tail == n * BLOCK_SIZE && Keyed(s.ix, a.x) && e == NextOf(s.ix, a.x)
       case Rewind(e) => a.offered && tail == n * BLOCK_SIZE && Keyed(s.ix, a.x) && e == NextOf(s.ix, a.x)
       case PutNull(e) => a.offered && tail == n * BLOCK_SIZE && Keyed(s.ix, a.x) && e == NextOf(s.ix, a.x)
       case Reset(_, e, b) =>
         a.offered && tail == n * BLOCK_SIZE && Keyed(s.ix, a.x) && e == NextOf(s.ix, a.x) && a.Home(b) == Produced
       case PutValue(_, e, b) =>
         && a.offered && tail == n * BLOCK_SIZE && Keyed(s.ix, a.x) && e == NextOf(s.ix, a.x)
         && a.Home(b) == Produced && s.Dequeued(b) == 0
       case Write(_) => !a.offered
       case Publish(item) => !a.offered && s.Cell(s.tailBlock, tail % BLOCK_SIZE) == item
  }

  // Unless a new block is due, the producer's current block is the last one in the index.
  ghost predicate TailBlockInv(s: State, a: Aux) {
    |a.x.hold| > 0 && s.counters.tail < |a.x.hold| * BLOCK_SIZE
    ==> a.x.hold[|a.x.hold| - 1] == Blk(s.tailBlock)
  }

  // Claimed indices first .. end - 1 still belong to t, and header h has seen their blocks.
  ghost predicate Owns(a: Aux, t: Tid, first: nat, end: nat) {
    forall i | first <= i < end :: i in a.owner && a.owner[i] == t
  }

  ghost predicate Seen(a: Aux, h: nat, end: nat) {
    h < |a.x.top| && end <= a.x.top[h] * BLOCK_SIZE
  }

  ghost predicate SlotIs(s: State, a: Aux, h: nat, k: nat, slot: nat) {
    && h < |s.ix.headers| == |a.x.offset|
    && |s.ix.headers[h].index| > 0
    && slot == Slot(a.x.offset[h], k, |s.ix.headers[h].index|)
  }

  ghost predicate LookInv(s: State, a: Aux, t: Tid) {
    match s.Look(t)
    case Done => true
    case AtHeader(first, end) => first < end && Owns(a, t, first, end)
    case AtTail(first, end, h) => first < end && Owns(a, t, first, end) && Seen(a, h, end)
    case AtKey(first, end, h, tail) =>
      && first < end && Owns(a, t, first, end) && Seen(a, h, end)
      && SlotIs(s, a, h, a.Anchor(t), tail)
      && BlockOf(first) <= a.Anchor(t)
      && (a.Anchor(t) < a.x.top[h] || (a.Anchor(t) == |a.x.entry| && h == |s.ix.headers| - 1 && a.offered))
    case AtValue(first, end, h, slot) =>
      && first < end && Owns(a, t, first, end) && Seen(a, h, end)
      && SlotIs(s, a, h, BlockOf(first), slot)
    case Reading(first, next, end, h, slot, b) =>
      && first < end && Owns(a, t, first, end) && Seen(a, h, end)
      && SlotIs(s, a, h, BlockOf(first), slot)
      && first <= next <= Stop(first, end)
      && BlockOf(first) < |a.x.hold| && a.x.hold[BlockOf(first)] == Blk(b)
    case Clearing(next, end, h, slot, b) =>
      && next <= end && Owns(a, t, next, end) && Seen(a, h, end)
      && a.Home(b).Closing? && a.Home(b).t == t
      && ClosingInv(s, a, a.Home(b).k, next, end, h, slot, b)
    case Freeing(next, end, h, slot, b) =>
      && next <= end && Owns(a, t, next, end) && Seen(a, h, end)
      && a.Home(b) == Held(t)
      && (next < end ==> next % BLOCK_SIZE == 0 && next > 0 && SlotIs(s, a, h, BlockOf(next) - 1, slot))
    case Fault => false
  }

  ghost predicate ClosingInv(s: State, a: Aux, k: nat, next: nat, end: nat, h: nat, slot: nat, b: Block) {
    && k < |a.x.hold| && a.x.hold[k] == Blk(b)
    && h < |a.x.top| && k < a.x.top[h]
    && SlotIs(s, a, h, k, slot)
    && (next < end ==> next == (k + 1) * BLOCK_SIZE)
  }

  // Claims of at least one element, and elements published one at a time.
  ghost predicate CountersInv(s: State, a: Aux) {
    && DC.Inv(s.counters, a.counters)
    && s.counters.tail == |s.items|
    && s.look.Keys == s.counters.pc.Keys
    && (forall t | t in s.counters.pc :: Positive(s.counters.pc[t]))
    && (forall t | t in s.look && s.look[t] != Done :: s.counters.pc[t] == DC.Idle)
  }

  predicate Positive(pc: DC.Pc) {
    match pc
    case LoadTail(m) => m > 0
    case LoadOver(m, _) => m > 0
    case LoadOptimistic(m, _, _) => m > 0
    case Reserve(d, _) => d > 0
    case Recheck(d, _, _) => d > 0
    case Take(g) => g > 0
    case _ => true
  }

  // The parts of the invariant that do not look at consumers' places.
  ghost predicate SharedInv(s: State, a: Aux) {
    && BlockIndex.Inv(s.ix, a.x, Ahead(s.producer))
    && BlocksInv(s, a)
    && OwnersInv(a, s.counters.head)
    && CellsInv(s, a)
    && ProducerInv(s, a)
    && TailBlockInv(s, a)
  }

  ghost predicate Right(s: State, d: Delivery) {
    d.index < |s.items| && d.item == s.items[d.index]
  }

  ghost predicate Inv(s: State, a: Aux) {
    && CountersInv(s, a)
    && SharedInv(s, a)
    && (forall t :: LookInv(s, a, t))
    && (forall j | 0 <= j < |s.got| :: Right(s, s.got[j]))
  }

  // ---------------------------------------------------------------------------------------
  // What a consumer relies on while others step

  ghost predicate HeadersKept(s: State, a: Aux, s': State, a': Aux) {
    && |a.x.top| == |a.x.offset| == |s.ix.headers| <= |s'.ix.headers| == |a'.x.offset| == |a'.x.top|
    && (forall j | 0 <= j < |s.ix.headers| ::
          && s'.ix.headers[j].index == s.ix.headers[j].index
          && a'.x.offset[j] == a.x.offset[j]
          && a'.x.top[j] >= a.x.top[j])
  }

  // An entry changes only where t has nothing left to do.
  ghost predicate HoldsKept(a: Aux, a': Aux, t: Tid) {
    && |a.gone| == |a.x.hold| <= |a'.x.hold|
    && (forall k | 0 <= k < |a.x.hold| && a'.x.hold[k] != a.x.hold[k] ::
          a.gone[k] == Indices(k) && a.x.hold[k].Blk? && a.Home(a.x.hold[k].block) != Closing(k, t))
  }

  ghost predicate Rely(s: State, a: Aux, s': State, a': Aux, t: Tid) {
    && HeadersKept(s, a, s', a')
    && HoldsKept(a, a', t)
    && (forall b | a.Home(b) == Held(t) || (a.Home(b).Closing? && a.Home(b).t == t) :: a'.Home(b) == a.Home(b))
    && (forall i | i in a.owner && a.owner[i] == t :: i in a'.owner && a'.owner[i] == t)
    && a'.Anchor(t) == a.Anchor(t)
    && (a.offered ==>
          && |s'.ix.headers| == |s.ix.headers| && s.ix.headers != []
          && ((a'.offered && |a'.x.entry| == |a.x.entry|) || a'.x.top[|s.ix.headers| - 1] > |a.x.entry|))
  }

  lemma LookFrame(s: State, a: Aux, s': State, a': Aux, t: Tid)
    requires LookInv(s, a, t) && OwnersInv(a, s.counters.head) && s'.Look(t) == s.Look(t)
    requires Rely(s, a, s', a', t)
    ensures LookInv(s', a', t)
  {
    var l := s.Look(t);
    if l.Reading? {
      assert l.first in a.owner;
      InItsBlock(l.first);
    }
  }

  lemma InItsBlock(i: nat)
    ensures i in Indices(BlockOf(i))
    ensures forall k: nat | i in Indices(k) :: k == BlockOf(i)
  {
  }

  // A claimed index not yet emptied has its block in the index.
  lemma OwnedIsHeld(s: State, a: Aux, i: nat)
    requires SharedInv(s, a) && i in a.owner
    ensures a.x.lo <= BlockOf(i) < |a.x.hold| && a.x.hold[BlockOf(i)].Blk?
    ensures a.Home(a.x.hold[BlockOf(i)].block) == At(BlockOf(i))
  {
    hide CellsInv, ProducerInv, TailBlockInv, HeadersInv, CurrentInv;
    InItsBlock(i);
  }

  // ---------------------------------------------------------------------------------------
  // Consumer steps that only read

  // Only consumers' places, anchors and the history differ.
  ghost predicate SameShared(s: State, a: Aux, s': State, a': Aux) {
    && s' == s.(look := s'.look, got := s'.got)
    && a' == a.(anchor := a'.anchor)
  }

  lemma QuietParts(s: State, a: Aux, s': State, a': Aux)
    requires SameShared(s, a, s', a') && SharedInv(s, a)
    ensures SharedInv(s', a')
  {
  }

  // A step that leaves the index alone.
  lemma RelySame(s: State, a: Aux, s': State, a': Aux, u: Tid)
    requires SharedInv(s, a) && s'.ix == s.ix && a'.x == a.x && a'.offered == a.offered && a'.Anchor(u) == a.Anchor(u)
    requires forall b | a.Home(b) == Held(u) || (a.Home(b).Closing? && a.Home(b).t == u) :: a'.Home(b) == a.Home(b)
    requires forall i | i in a.owner && a.owner[i] == u :: i in a'.owner && a'.owner[i] == u
    ensures Rely(s, a, s', a', u)
  {
    hide CellsInv, ProducerInv, TailBlockInv, OwnersInv, EntriesInv;
  }

  // The step of t keeps every other consumer's invariant.
  lemma Others(s: State, a: Aux, s': State, a': Aux, t: Tid)
    requires forall u :: LookInv(s, a, u)
    requires OwnersInv(a, s.counters.head)
    requires forall u | u != t :: s'.Look(u) == s.Look(u) && Rely(s, a, s', a', u)
    requires LookInv(s', a', t)
    ensures forall u :: LookInv(s', a', u)
  {
    forall u ensures LookInv(s', a', u) {
      if u != t {
        assert LookInv(s, a, u);
        LookFrame(s, a, s', a', u);
      }
    }
  }

  lemma CountersQuiet(s: State, a: Aux, s': State, a': Aux, t: Tid)
    requires CountersInv(s, a) && t in s.look && s.look[t] != Done
    requires s'.counters == s.counters && s'.items == s.items && a'.counters == a.counters
    requires s'.look == s.look[t := s'.Look(t)]
    ensures CountersInv(s', a')
  {
  }

  // A step that changes nothing but its thread's place, its anchor and the history.
  lemma QuietStep(s: State, a: Aux, s': State, a': Aux, t: Tid)
    requires Inv(s, a) && t in s.look && s.look[t] != Done
    requires SameShared(s, a, s', a') && s'.look == s.look[t := s'.Look(t)] && a'.anchor == a.anchor[t := a'.Anchor(t)]
    requires LookInv(s', a', t)
    requires forall j | 0 <= j < |s'.got| :: Right(s, s'.got[j])
    ensures Inv(s', a')
  {
    hide SharedInv, DC.Inv, LookInv, Rely;
    SharedOwners(s, a);
    QuietParts(s, a, s', a');
    forall u | u != t ensures s'.Look(u) == s.Look(u) && Rely(s, a, s', a', u) {
      RelySame(s, a, s', a', u);
    }
    Others(s, a, s', a', t);
    CountersQuiet(s, a, s', a', t);
  }

  lemma HeadBelowTail(s: State, a: Aux)
    requires CountersInv(s, a)
    ensures s.counters.head <= s.counters.tail
  {
    DC.GrantedFit(a.counters, s.counters.tail, s.counters.optimistic);
  }

  // The current header has seen every claimed index.
  lemma CurrentHasSeen(s: State, a: Aux, t: Tid, first: nat, end: nat)
    requires CountersInv(s, a) && SharedInv(s, a) && first < end && Owns(a, t, first, end)
    ensures s.ix.headers != [] && Seen(a, |s.ix.headers| - 1, end)
  {
    hide BlocksInv, ProducerInv, TailBlockInv;
    HeadBelowTail(s, a);
    assert end - 1 in a.owner;
  }

  lemma HeaderStep(s: State, a: Aux, t: Tid)
    requires Inv(s, a) && t in s.look && s.look[t].AtHeader?
    ensures Inv(LookStep(s, t), Anchored(s, a, t))
  {
    hide BlockIndex.Inv, BlocksInv, OwnersInv, CellsInv, ProducerInv, TailBlockInv, DC.Inv;
    assert LookInv(s, a, t);
    CurrentHasSeen(s, a, t, s.look[t].first, s.look[t].end);
    QuietStep(s, a, LookStep(s, t), Anchored(s, a, t), t);
  }

  // The block number at the slot a header's tail names.
  function TailBlockNumber(s: State, a: Aux, h: nat): int {
    if h < |a.x.top| && h < |s.ix.headers| - 1 then a.x.top[h] - 1
    else if Ahead(s.producer) then |a.x.entry| else |a.x.entry| - 1
  }

  lemma TailRead(s: State, a: Aux, first: nat, end: nat, h: nat)
    requires SharedInv(s, a) && first < end && Seen(a, h, end)
    ensures var k := TailBlockNumber(s, a, h);
      && BlockOf(first) <= k && SlotIs(s, a, h, k, TailOf(s.ix, h))
      && (k < a.x.top[h] || (k == |a.x.entry| && h == |s.ix.headers| - 1 && a.offered))
  {
    hide BlocksInv, OwnersInv, CellsInv, TailBlockInv;
    assert Serves(s.ix.headers[h], a.x.offset[h], a.x.lo, a.x.top[h], a.x.entry);
  }

  // The bookkeeping of a reading step: at AtTail, the block number whose key comes next.
  ghost function Anchored(s: State, a: Aux, t: Tid): Aux {
    var k := if s.Look(t).AtTail? then TailBlockNumber(s, a, s.Look(t).header) else a.Anchor(t);
    a.(anchor := a.anchor[t := if k < 0 then 0 else k])
  }

  lemma TailStep(s: State, a: Aux, t: Tid)
    requires Inv(s, a) && t in s.look && s.look[t].AtTail?
    ensures Inv(LookStep(s, t), Anchored(s, a, t))
  {
    hide BlockIndex.Inv, BlocksInv, OwnersInv, CellsInv, ProducerInv, TailBlockInv, DC.Inv;
    var AtTail(first, end, h) := s.look[t];
    assert LookInv(s, a, t);
    TailRead(s, a, first, end, h);
    QuietStep(s, a, LookStep(s, t), Anchored(s, a, t), t);
  }

  lemma KeyRead(s: State, a: Aux, t: Tid)
    requires Inv(s, a) && t in s.look && s.look[t].AtKey?
    ensures var AtKey(first, end, h, tail) := s.look[t];
      && h < |s.ix.headers| && |s.ix.headers[h].index| > 0
      && s.ix.Key(EntryAt(s.ix, h, tail)) == a.Anchor(t) * BLOCK_SIZE
  {
    hide BlockIndex.Inv, OwnersInv, CellsInv, BlocksInv, TailBlockInv, DC.Inv;
    var AtKey(first, end, h, tail) := s.look[t];
    assert LookInv(s, a, t);
    OwnedIsHeld(s, a, first);
    if a.Anchor(t) < a.x.top[h] {
      SlotHolds(s.ix, a.x, Ahead(s.producer), h, a.Anchor(t));
    }
  }

  lemma KeyStep(s: State, a: Aux, t: Tid)
    requires Inv(s, a) && t in s.look && s.look[t].AtKey?
    ensures Inv(LookStep(s, t), Anchored(s, a, t))
  {
    hide BlockIndex.Inv, BlocksInv, OwnersInv, CellsInv, ProducerInv, TailBlockInv, DC.Inv;
    var AtKey(first, end, h, tail) := s.look[t];
    assert LookInv(s, a, t);
    KeyRead(s, a, t);
    SlotFound(a.x.offset[h], a.Anchor(t), BlockOf(first), |s.ix.headers[h].index|);
    QuietStep(s, a, LookStep(s, t), Anchored(s, a, t), t);
  }

  // The slot a consumer looks up has its block's base as key and its block as value.
  lemma ValueRead(s: State, a: Aux, t: Tid)
    requires Inv(s, a) && t in s.look && s.look[t].AtValue?
    ensures var AtValue(first, end, h, slot) := s.look[t]; var k := BlockOf(first);
      && k < |a.x.hold| && a.x.hold[k].Blk?
      && s.ix.Key(EntryAt(s.ix, h, slot)) == k * BLOCK_SIZE
      && s.ix.Value(EntryAt(s.ix, h, slot)) == a.x.hold[k]
  {
    hide BlockIndex.Inv, OwnersInv, CellsInv, BlocksInv, ProducerInv, TailBlockInv, DC.Inv;
    var AtValue(first, end, h, slot) := s.look[t];
    assert LookInv(s, a, t);
    OwnedIsHeld(s, a, first);
    SlotHolds(s.ix, a.x, Ahead(s.producer), h, BlockOf(first));
  }

  lemma ValueStep(s: State, a: Aux, t: Tid)
    requires Inv(s, a) && t in s.look && s.look[t].AtValue?
    ensures Inv(LookStep(s, t), Anchored(s, a, t))
  {
    hide BlockIndex.Inv, BlocksInv, OwnersInv, CellsInv, ProducerInv, TailBlockInv, DC.Inv;
    assert LookInv(s, a, t);
    ValueRead(s, a, t);
    QuietStep(s, a, LookStep(s, t), Anchored(s, a, t), t);
  }

  lemma SameBlock(first: nat, i: nat, end: nat)
    requires first <= i < Stop(first, end)
    ensures BlockOf(i) == BlockOf(first) && i < end
  {
  }

  lemma CellRead(s: State, a: Aux, t: Tid)
    requires Inv(s, a) && t in s.look && s.look[t].Reading?
    requires s.look[t].next < Stop(s.look[t].first, s.look[t].end)
    ensures var next := s.look[t].next;
      next < |s.items| && s.Cell(s.look[t].block, next % BLOCK_SIZE) == s.items[next]
  {
    hide BlockIndex.Inv, BlocksInv, ProducerInv, TailBlockInv, DC.Inv;
    var Reading(first, next, end, h, slot, b) := s.look[t];
    assert LookInv(s, a, t);
    SameBlock(first, next, end);
    HeadBelowTail(s, a);
    assert next in a.owner;
    assert InCell(s, a.x.hold[BlockOf(next)], next);
  }

  lemma ReadStep(s: State, a: Aux, t: Tid)
    requires Inv(s, a) && t in s.look && s.look[t].Reading?
    requires s.look[t].next < Stop(s.look[t].first, s.look[t].end)
    ensures Inv(LookStep(s, t), Anchored(s, a, t))
  {
    hide BlockIndex.Inv, BlocksInv, OwnersInv, CellsInv, ProducerInv, TailBlockInv, DC.Inv;
    assert LookInv(s, a, t);
    CellRead(s, a, t);
    QuietStep(s, a, LookStep(s, t), Anchored(s, a, t), t);
  }

  // ---------------------------------------------------------------------------------------
  // Emptying a run of indices

  ghost function Without(owner: map<int, Tid>, lo: int, hi: int): map<int, Tid> {
    map i | i in owner && !(lo <= i < hi) :: owner[i]
  }

  // The bookkeeping after set_many_empty on first .. stop - 1.
  ghost function Emptied(s: State, a: Aux, t: Tid): Aux {
    match s.Look(t)
    case Reading(first, next, end, h, slot, b) =>
      var k, stop := BlockOf(first), Stop(first, end);
      if k < |a.gone| then
        a.(gone := a.gone[k := a.gone[k] + Range(first, stop)],
           owner := Without(a.owner, first, stop),
           home := if s.Dequeued(b) + stop - first == BLOCK_SIZE then a.home[b := Closing(k, t)] else a.home)
      else a
    case _ => a
  }

  ghost predicate AtEnd(s: State, a: Aux, t: Tid) {
    && t in s.look && s.look[t].Reading?
    && s.look[t].next == Stop(s.look[t].first, s.look[t].end)
  }

  // What emptying does to the block's own counts.
  lemma EmptiedCounts(s: State, a: Aux, t: Tid)
    requires SharedInv(s, a) && LookInv(s, a, t) && AtEnd(s, a, t)
    ensures var Reading(first, next, end, h, slot, b) := s.look[t];
      var k, stop := BlockOf(first), Stop(first, end);
      && k < |a.gone| && first < stop <= end
      && a.Home(b) == At(k) && a.x.hold[k] == Blk(b)
      && a.gone[k] + Range(first, stop) <= Indices(k)
      && |a.gone[k] + Range(first, stop)| == s.Dequeued(b) + stop - first <= BLOCK_SIZE
      && (s.Dequeued(b) + stop - first == BLOCK_SIZE ==> a.gone[k] + Range(first, stop) == Indices(k))
  {
    hide BlockIndex.Inv, CellsInv, ProducerInv, TailBlockInv;
    var Reading(first, next, end, h, slot, b) := s.look[t];
    var k, stop := BlockOf(first), Stop(first, end);
    assert first in a.owner;
    OwnedIsHeld(s, a, first);
    forall i | first <= i < stop ensures i !in a.gone[k] {
      SameBlock(first, i, end);
      assert i in a.owner;
    }
    AddRange(a.gone[k], first, stop);
    RunInBlock(first, end);
    SubsetSize(a.gone[k] + Range(first, stop), Indices(k));
    RangeSize(k * BLOCK_SIZE, (k + 1) * BLOCK_SIZE);
  }

  lemma RunInBlock(first: nat, end: nat)
    requires first < end
    ensures first < Stop(first, end) <= end
    ensures Range(first, Stop(first, end)) <= Indices(BlockOf(first))
    ensures Stop(first, end) < end ==> Stop(first, end) == (BlockOf(first) + 1) * BLOCK_SIZE
  {
  }

  // Blocks other than b, the one holding block number k, keep their part of the invariant.
  lemma BlocksUpdate(s: State, a: Aux, s': State, a': Aux, k: nat, b: Block)
    requires BlocksInv(s, a) && k < |a.gone| && a.x.hold[k] == Blk(b) && a.Home(b) != Pooled
    requires a'.x.hold == a.x.hold && s'.pool == s.pool
    requires |a'.gone| == |a.gone| && forall j | 0 <= j < |a.gone| && j != k :: a'.gone[j] == a.gone[j]
    requires forall c | c != b :: a'.Home(c) == a.Home(c) && s'.Dequeued(c) == s.Dequeued(c)
    requires a'.gone[k] <= Indices(k) && InUse(k, a'.Home(b), s'.Dequeued(b), a'.gone[k])
    ensures BlocksInv(s', a')
  {
    forall j | 0 <= j < |a'.gone| && a'.x.hold[j].Blk?
      ensures var c := a'.x.hold[j].block; InUse(j, a'.Home(c), s'.Dequeued(c), a'.gone[j])
    {
      var c := a.x.hold[j].block;
      assert InUse(j, a.Home(c), s.Dequeued(c), a.gone[j]);
      assert InUse(k, a.Home(b), s.Dequeued(b), a.gone[k]);
    }
  }

  lemma EmptiedBlocks(s: State, a: Aux, t: Tid)
    requires SharedInv(s, a) && LookInv(s, a, t) && AtEnd(s, a, t)
    ensures BlocksInv(LookStep(s, t), Emptied(s, a, t))
  {
    hide BlockIndex.Inv, CellsInv, ProducerInv, TailBlockInv, LookInv, OwnersInv;
    EmptiedCounts(s, a, t);
    assert |a.gone| == |a.x.hold|;
    hide BlocksInv;
    BlocksUpdate(s, a, LookStep(s, t), Emptied(s, a, t), BlockOf(s.look[t].first), s.look[t].block);
  }

  lemma EmptiedOwners(s: State, a: Aux, t: Tid)
    requires SharedInv(s, a) && LookInv(s, a, t) && AtEnd(s, a, t)
    ensures OwnersInv(Emptied(s, a, t), s.counters.head)
  {
    hide BlockIndex.Inv, CellsInv, ProducerInv, TailBlockInv, BlocksInv;
    EmptiedCounts(s, a, t);
    var a' := Emptied(s, a, t);
    var Reading(first, next, end, h, slot, b) := s.look[t];
    forall k, i | 0 <= k < |a'.gone| && i in a'.gone[k] ensures i < s.counters.head {
      if i !in a.gone[k] {
        assert i in a.owner;
      }
    }
  }

  lemma EmptiedCells(s: State, a: Aux, t: Tid)
    requires SharedInv(s, a) && LookInv(s, a, t) && AtEnd(s, a, t)
    ensures CellsInv(LookStep(s, t), Emptied(s, a, t))
  {
    hide BlockIndex.Inv, BlocksInv, ProducerInv, TailBlockInv, OwnersInv;
    EmptiedCounts(s, a, t);
    CellsGrow(s, a, LookStep(s, t), Emptied(s, a, t));
  }

  // More emptied indices, same cells.
  lemma CellsGrow(s: State, a: Aux, s': State, a': Aux)
    requires CellsInv(s, a) && s'.cells == s.cells && s'.items == s.items && a'.x.hold == a.x.hold
    requires |a'.gone| == |a.gone| && forall k | 0 <= k < |a.gone| :: a.gone[k] <= a'.gone[k]
    ensures CellsInv(s', a')
  {
    forall i | 0 <= i < |s'.items|
      ensures BlockOf(i) < |a'.gone| && (i in a'.gone[BlockOf(i)] || InCell(s', a'.x.hold[BlockOf(i)], i))
    {
      assert i in a.gone[BlockOf(i)] || InCell(s, a.x.hold[BlockOf(i)], i);
    }
  }

  // The producer's own part sees a consumer's step only through its block and the next entry.
  lemma ProducerFrame(s: State, a: Aux, s': State, a': Aux)
    requires ProducerInv(s, a) && s'.producer == s.producer && s'.ix == s.ix && a'.x == a.x && a'.offered == a.offered
    requires s'.counters.tail == s.counters.tail && s'.cells == s.cells && s'.tailBlock == s.tailBlock
    requires forall b | a.Home(b) == Produced :: a'.Home(b) == Produced && s'.Dequeued(b) == s.Dequeued(b)
    ensures ProducerInv(s', a')
  {
  }

  lemma EmptiedLook(s: State, a: Aux, t: Tid)
    requires SharedInv(s, a) && LookInv(s, a, t) && AtEnd(s, a, t)
    ensures LookInv(LookStep(s, t), Emptied(s, a, t), t)
  {
    hide BlockIndex.Inv, CellsInv, ProducerInv, TailBlockInv, OwnersInv, BlocksInv;
    EmptiedCounts(s, a, t);
    var Reading(first, next, end, h, slot, b) := s.look[t];
    RunInBlock(first, end);
    SlotAfter(a.x.offset[h], BlockOf(first), |s.ix.headers[h].index|);
    var s' := LookStep(s, t);
    assert s'.Look(t) == s'.look[t];
  }

  lemma EmptiedRely(s: State, a: Aux, t: Tid, u: Tid)
    requires SharedInv(s, a) && LookInv(s, a, t) && AtEnd(s, a, t) && u != t
    ensures Rely(s, a, LookStep(s, t), Emptied(s, a, t), u)
  {
    hide CellsInv, ProducerInv, TailBlockInv, OwnersInv, BlockIndex.Inv, BlocksInv;
    EmptiedCounts(s, a, t);
    var Reading(first, next, end, h, slot, b) := s.look[t];
    forall i | i in a.owner && a.owner[i] == u ensures i in Emptied(s, a, t).owner {
      assert Owns(a, t, first, end);
    }
    RelySame(s, a, LookStep(s, t), Emptied(s, a, t), u);
  }

  lemma EmptyStep(s: State, a: Aux, t: Tid)
    requires Inv(s, a) && AtEnd(s, a, t)
    ensures Inv(LookStep(s, t), Emptied(s, a, t))
  {
    hide BlockIndex.Inv, BlocksInv, OwnersInv, CellsInv, ProducerInv, TailBlockInv, DC.Inv, LookInv, Rely;
    assert LookInv(s, a, t);
    var s', a' := LookStep(s, t), Emptied(s, a, t);
    EmptiedCounts(s, a, t);
    EmptiedBlocks(s, a, t);
    EmptiedOwners(s, a, t);
    EmptiedCells(s, a, t);
    EmptiedLook(s, a, t);
    ProducerFrame(s, a, s', a');
    assert TailBlockInv(s', a') by { TailBlockFrame(s, a, s', a'); }
    forall u | u != t ensures s'.Look(u) == s.Look(u) && Rely(s, a, s', a', u) {
      EmptiedRely(s, a, t, u);
    }
    Others(s, a, s', a', t);
    CountersQuiet(s, a, s', a', t);
  }

  lemma TailBlockFrame(s: State, a: Aux, s': State, a': Aux)
    requires TailBlockInv(s, a) && s'.counters.tail == s.counters.tail && s'.tailBlock == s.tailBlock && a'.x.hold == a.x.hold
    ensures TailBlockInv(s', a')
  {
  }

  // ---------------------------------------------------------------------------------------
  // Releasing an emptied block

  ghost function Cleared(s: State, a: Aux, t: Tid): Aux {
    match s.Look(t)
    case Clearing(next, end, h, slot, b) =>
      if a.Home(b).Closing? && a.Home(b).k < |a.x.hold| then
        a.(x := a.x.(hold := a.x.hold[a.Home(b).k := Null]), home := a.home[b := Held(t)])
      else a
    case _ => a
  }

  lemma ClearedEntry(s: State, a: Aux, t: Tid)
    requires SharedInv(s, a) && LookInv(s, a, t) && t in s.look && s.look[t].Clearing?
    ensures var Clearing(next, end, h, slot, b) := s.look[t];
      && a.Home(b).Closing? && a.Home(b).t == t
      && var k := a.Home(b).k;
      && a.x.lo <= k < |a.x.hold| && k < |a.gone| && a.x.hold[k] == Blk(b) && a.gone[k] == Indices(k)
      && |a.x.entry| == |a.x.hold| && EntryAt(s.ix, h, slot) == a.x.entry[k]
  {
    hide CellsInv, ProducerInv, TailBlockInv, OwnersInv, HeadersInv, CurrentInv;
    var Clearing(next, end, h, slot, b) := s.look[t];
    var k := a.Home(b).k;
    assert InUse(k, a.Home(b), s.Dequeued(b), a.gone[k]);
    SlotHolds(s.ix, a.x, Ahead(s.producer), h, k);
  }

  lemma ClearedBlocks(s: State, a: Aux, t: Tid)
    requires SharedInv(s, a) && LookInv(s, a, t) && t in s.look && s.look[t].Clearing?
    ensures BlocksInv(LookStep(s, t), Cleared(s, a, t))
  {
    hide BlockIndex.Inv, CellsInv, ProducerInv, TailBlockInv, LookInv, OwnersInv;
    ClearedEntry(s, a, t);
    var s', a', b := LookStep(s, t), Cleared(s, a, t), s.look[t].block;
    forall j | 0 <= j < |a'.gone| && a'.x.hold[j].Blk?
      ensures var c := a'.x.hold[j].block; InUse(j, a'.Home(c), s'.Dequeued(c), a'.gone[j])
    {
      var c := a.x.hold[j].block;
      assert InUse(j, a.Home(c), s.Dequeued(c), a.gone[j]);
    }
  }

  lemma ClearedCells(s: State, a: Aux, t: Tid)
    requires SharedInv(s, a) && LookInv(s, a, t) && t in s.look && s.look[t].Clearing?
    ensures CellsInv(LookStep(s, t), Cleared(s, a, t))
  {
    hide BlockIndex.Inv, BlocksInv, ProducerInv, TailBlockInv, OwnersInv, LookInv;
    ClearedEntry(s, a, t);
    var s', a' := LookStep(s, t), Cleared(s, a, t);
    forall i | 0 <= i < |s'.items|
      ensures BlockOf(i) < |a'.gone| && (i in a'.gone[BlockOf(i)] || InCell(s', a'.x.hold[BlockOf(i)], i))
    {
      assert i in a.gone[BlockOf(i)] || InCell(s, a.x.hold[BlockOf(i)], i);
      InItsBlock(i);
    }
  }

  lemma ClearedProducer(s: State, a: Aux, t: Tid)
    requires SharedInv(s, a) && LookInv(s, a, t) && t in s.look && s.look[t].Clearing?
    ensures ProducerInv(LookStep(s, t), Cleared(s, a, t))
    ensures BlockIndex.Inv(LookStep(s, t).ix, Cleared(s, a, t).x, Ahead(s.producer))
  {
    hide BlocksInv, CellsInv, TailBlockInv, OwnersInv, LookInv, HeadersInv, CurrentInv, EntriesInv;
    ClearedEntry(s, a, t);
    BlockReleased(s.ix, a.x, Ahead(s.producer), a.Home(s.look[t].block).k);
  }

  // The producer's current block is never the one being released.
  lemma ClearedTailBlock(s: State, a: Aux, t: Tid)
    requires CountersInv(s, a) && SharedInv(s, a) && LookInv(s, a, t) && t in s.look && s.look[t].Clearing?
    ensures TailBlockInv(LookStep(s, t), Cleared(s, a, t))
  {
    hide BlockIndex.Inv, BlocksInv, CellsInv, ProducerInv, LookInv, DC.Inv;
    ClearedEntry(s, a, t);
    HeadBelowTail(s, a);
    var k := a.Home(s.look[t].block).k;
    assert (k + 1) * BLOCK_SIZE - 1 in Indices(k);
  }

  lemma ClearedRely(s: State, a: Aux, t: Tid, u: Tid)
    requires SharedInv(s, a) && LookInv(s, a, t) && t in s.look && s.look[t].Clearing? && u != t
    ensures Rely(s, a, LookStep(s, t), Cleared(s, a, t), u)
  {
    hide CellsInv, ProducerInv, TailBlockInv, OwnersInv, LookInv, EntriesInv;
    ClearedEntry(s, a, t);
  }

  lemma ClearedLook(s: State, a: Aux, t: Tid)
    requires SharedInv(s, a) && LookInv(s, a, t) && t in s.look && s.look[t].Clearing?
    ensures LookInv(LookStep(s, t), Cleared(s, a, t), t)
  {
    hide BlockIndex.Inv, BlocksInv, CellsInv, ProducerInv, TailBlockInv, OwnersInv;
    ClearedEntry(s, a, t);
    assert LookStep(s, t).Look(t) == LookStep(s, t).look[t];
  }

  lemma ClearStep(s: State, a: Aux, t: Tid)
    requires Inv(s, a) && t in s.look && s.look[t].Clearing?
    ensures Inv(LookStep(s, t), Cleared(s, a, t))
  {
    hide BlockIndex.Inv, BlocksInv, OwnersInv, CellsInv, ProducerInv, TailBlockInv, DC.Inv, LookInv, Rely;
    assert LookInv(s, a, t);
    var s', a' := LookStep(s, t), Cleared(s, a, t);
    ClearedBlocks(s, a, t);
    ClearedCells(s, a, t);
    ClearedProducer(s, a, t);
    ClearedTailBlock(s, a, t);
    ClearedLook(s, a, t);
    assert OwnersInv(a', s.counters.head) by { OwnersFrame(a, a', s.counters.head); }
    forall u | u != t ensures s'.Look(u) == s.Look(u) && Rely(s, a, s', a', u) {
      ClearedRely(s, a, t, u);
    }
    Others(s, a, s', a', t);
    CountersQuiet(s, a, s', a', t);
  }

  lemma OwnersFrame(a: Aux, a': Aux, head: nat)
    requires OwnersInv(a, head) && a'.owner == a.owner && a'.gone == a.gone
    ensures OwnersInv(a', head)
  {
  }

  // ---------------------------------------------------------------------------------------
  // Handing the block back

  ghost function Freed(s: State, a: Aux, t: Tid): Aux {
    if s.Look(t).Freeing? then a.(home := a.home[s.Look(t).block := Pooled]) else a
  }

  lemma FreedBlocks(s: State, a: Aux, s': State, a': Aux, b: Block)
    requires BlocksInv(s, a) && a.Home(b).Held?
    requires a'.x == a.x && a'.gone == a.gone && s'.dequeued == s.dequeued && s'.pool == s.pool + {b}
    requires a'.home == a.home[b := Pooled]
    ensures BlocksInv(s', a')
  {
    forall j | 0 <= j < |a'.gone| && a'.x.hold[j].Blk?
      ensures var c := a'.x.hold[j].block; InUse(j, a'.Home(c), s'.Dequeued(c), a'.gone[j])
    {
      var c := a.x.hold[j].block;
      assert InUse(j, a.Home(c), s.Dequeued(c), a.gone[j]);
    }
  }

  lemma FreedLook(s: State, a: Aux, t: Tid)
    requires LookInv(s, a, t) && t in s.look && s.look[t].Freeing?
    ensures LookInv(LookStep(s, t), Freed(s, a, t), t)
  {
    var Freeing(next, end, h, slot, b) := s.look[t];
    if next < end {
      SlotAfter(a.x.offset[h], BlockOf(next) - 1, |s.ix.headers[h].index|);
    }
    assert LookStep(s, t).Look(t) == LookStep(s, t).look[t];
  }

  lemma FreedRely(s: State, a: Aux, t: Tid, u: Tid)
    requires SharedInv(s, a) && LookInv(s, a, t) && t in s.look && s.look[t].Freeing? && u != t
    ensures Rely(s, a, LookStep(s, t), Freed(s, a, t), u)
  {
    hide SharedInv;
    RelySame(s, a, LookStep(s, t), Freed(s, a, t), u);
  }

  lemma FreeStep(s: State, a: Aux, t: Tid)
    requires Inv(s, a) && t in s.look && s.look[t].Freeing?
    ensures Inv(LookStep(s, t), Freed(s, a, t))
  {
    hide BlockIndex.Inv, BlocksInv, OwnersInv, CellsInv, ProducerInv, TailBlockInv, DC.Inv, Rely;
    assert LookInv(s, a, t);
    var s', a' := LookStep(s, t), Freed(s, a, t);
    FreedBlocks(s, a, s', a', s.look[t].block);
    FreedLook(s, a, t);
    ProducerFrame(s, a, s', a');
    assert OwnersInv(a', s.counters.head) by { OwnersFrame(a, a', s.counters.head); }
    assert CellsInv(s', a') by { CellsSame(s, a, s', a'); }
    TailBlockFrame(s, a, s', a');
    forall u | u != t ensures s'.Look(u) == s.Look(u) && Rely(s, a, s', a', u) {
      FreedRely(s, a, t, u);
    }
    Others(s, a, s', a', t);
    CountersQuiet(s, a, s', a', t);
  }

  lemma CellsSame(s: State, a: Aux, s': State, a': Aux)
    requires CellsInv(s, a) && s'.cells == s.cells && s'.items == s.items && a'.x.hold == a.x.hold && a'.gone == a.gone
    ensures CellsInv(s', a')
  {
    CellsGrow(s, a, s', a');
  }

  // ---------------------------------------------------------------------------------------
  // Steps on the counters

  ghost function Claimed(s: State, a: Aux, t: Tid): Aux {
    var c := a.(counters := DC.Track(s.counters, a.counters, t));
    if s.counters.Pc(t).Take? then
      c.(owner := map i | i in a.owner.Keys + Range(s.counters.head, s.counters.head + s.counters.Pc(t).granted) ::
                    if i in a.owner then a.owner[i] else t)
    else c
  }

  lemma PositiveStep(pc: DC.Pc, max: nat, tail: nat, head: nat, optimistic: nat, overcommit: nat)
    requires Positive(pc) && max > 0
    ensures Positive(DC.Local(pc, max, tail, head, optimistic, overcommit).pc)
  {
  }

  lemma CountersStep(s: State, a: Aux, t: Tid, max: nat)
    requires CountersInv(s, a) && t in s.look && s.look[t] == Done && max > 0
    ensures CountersInv(CountStep(s, t, max), Claimed(s, a, t))
    ensures CountStep(s, t, max).counters.tail == s.counters.tail
  {
    hide DC.Inv, DC.Track;
    DC.ConsumerInv(s.counters, a.counters, t, max);
    PositiveStep(s.counters.pc[t], max, s.counters.tail, s.counters.head, s.counters.optimistic, s.counters.overcommit);
  }

  lemma ClaimedOwners(s: State, a: Aux, t: Tid, max: nat)
    requires CountersInv(s, a) && SharedInv(s, a) && t in s.look && s.look[t] == Done && max > 0
    ensures OwnersInv(Claimed(s, a, t), CountStep(s, t, max).counters.head)
  {
    hide BlockIndex.Inv, BlocksInv, ProducerInv, TailBlockInv, DC.Inv, DC.Track;
    CountersStep(s, a, t, max);
    HeadBelowTail(CountStep(s, t, max), Claimed(s, a, t));
    assert |s.items| <= |a.gone| * BLOCK_SIZE;
  }

  lemma ClaimedRely(s: State, a: Aux, t: Tid, max: nat, u: Tid)
    requires SharedInv(s, a)
    ensures Rely(s, a, CountStep(s, t, max), Claimed(s, a, t), u)
  {
    hide SharedInv, DC.Track;
    RelySame(s, a, CountStep(s, t, max), Claimed(s, a, t), u);
  }

  lemma ClaimedLook(s: State, a: Aux, t: Tid, max: nat)
    requires CountersInv(s, a) && SharedInv(s, a) && t in s.look && s.look[t] == Done && max > 0
    ensures LookInv(CountStep(s, t, max), Claimed(s, a, t), t)
  {
    hide BlockIndex.Inv, BlocksInv, CellsInv, ProducerInv, TailBlockInv, DC.Inv, DC.Track;
    assert Positive(s.counters.pc[t]);
    var s' := CountStep(s, t, max);
    if s.counters.Pc(t).Take? {
      assert s'.Look(t) == AtHeader(s.counters.head, s.counters.head + s.counters.Pc(t).granted);
    } else {
      assert s'.Look(t) == Done;
    }
  }

  lemma ClaimedShared(s: State, a: Aux, t: Tid, max: nat)
    requires CountersInv(s, a) && SharedInv(s, a) && t in s.look && s.look[t] == Done && max > 0
    ensures SharedInv(CountStep(s, t, max), Claimed(s, a, t))
  {
    hide BlockIndex.Inv, BlocksInv, CellsInv, ProducerInv, TailBlockInv, DC.Inv, OwnersInv, DC.Track;
    var s', a' := CountStep(s, t, max), Claimed(s, a, t);
    CountersStep(s, a, t, max);
    ClaimedOwners(s, a, t, max);
    ProducerFrame(s, a, s', a');
    TailBlockFrame(s, a, s', a');
    CellsSame(s, a, s', a');
    BlocksSame(s, a, s', a');
  }

  lemma BlocksSame(s: State, a: Aux, s': State, a': Aux)
    requires BlocksInv(s, a) && s'.dequeued == s.dequeued && s'.pool == s.pool
    requires a'.x.hold == a.x.hold && a'.gone == a.gone && a'.home == a.home
    ensures BlocksInv(s', a')
  {
    forall j | 0 <= j < |a'.gone| && a'.x.hold[j].Blk?
      ensures var c := a'.x.hold[j].block; InUse(j, a'.Home(c), s'.Dequeued(c), a'.gone[j])
    {
      var c := a.x.hold[j].block;
      assert InUse(j, a.Home(c), s.Dequeued(c), a.gone[j]);
    }
  }

  lemma CountStepInv(s: State, a: Aux, t: Tid, max: nat)
    requires Inv(s, a) && t in s.look && s.look[t] == Done && max > 0
    ensures Inv(CountStep(s, t, max), Claimed(s, a, t))
  {
    hide SharedInv, DC.Inv, LookInv, Rely, DC.Track;
    var s', a' := CountStep(s, t, max), Claimed(s, a, t);
    CountersStep(s, a, t, max);
    ClaimedShared(s, a, t, max);
    ClaimedLook(s, a, t, max);
    forall u | u != t ensures s'.Look(u) == s.Look(u) && Rely(s, a, s', a', u) {
      ClaimedRely(s, a, t, max, u);
    }
    SharedOwners(s, a);
    Others(s, a, s', a', t);
  }

  lemma SharedOwners(s: State, a: Aux)
    requires SharedInv(s, a)
    ensures OwnersInv(a, s.counters.head)
  {
  }

  ghost function TrackConsumer(s: State, a: Aux, t: Tid): Aux {
    match s.Look(t)
    case Done => Claimed(s, a, t)
    case Reading(first, next, end, _, _, _) =>
      if next < Stop(first, end) then Anchored(s, a, t) else Emptied(s, a, t)
    case Clearing(_, _, _, _, _) => Cleared(s, a, t)
    case Freeing(_, _, _, _, _) => Freed(s, a, t)
    case _ => Anchored(s, a, t)
  }

  // One step of a consumer, whatever it is doing.
  lemma ConsumerInv(s: State, a: Aux, t: Tid, max: nat)
    requires Inv(s, a) && t in s.look && max > 0
    ensures Inv(ConsumerStep(s, t, max), TrackConsumer(s, a, t))
  {
    hide SharedInv, CountersInv, Anchored, Emptied, Cleared, Freed, Claimed, LookStep, CountStep;
    assert LookInv(s, a, t);
    match s.look[t] {
      case Done => CountStepInv(s, a, t, max);
      case AtHeader(_, _) => HeaderStep(s, a, t);
      case AtTail(_, _, _) => TailStep(s, a, t);
      case AtKey(_, _, _, _) => KeyStep(s, a, t);
      case AtValue(_, _, _, _) => ValueStep(s, a, t);
      case Reading(first, next, end, _, _, _) =>
        if next < Stop(first, end) {
          ReadStep(s, a, t);
        } else {
          EmptyStep(s, a, t);
        }
      case Clearing(_, _, _, _, _) => ClearStep(s, a, t);
      case Freeing(_, _, _, _, _) => FreeStep(s, a, t);
    }
  }

  // ---------------------------------------------------------------------------------------
  // Producer steps

  // The producer's step keeps every consumer's invariant.
  lemma AllLook(s: State, a: Aux, s': State, a': Aux)
    requires forall u :: LookInv(s, a, u)
    requires SharedInv(s, a) && s'.look == s.look
    requires forall u :: Rely(s, a, s', a', u)
    ensures forall u :: LookInv(s', a', u)
  {
    hide LookInv, Rely;
    SharedOwners(s, a);
    forall u ensures LookInv(s', a', u) {
      assert LookInv(s, a, u);
      LookFrame(s, a, s', a', u);
    }
  }

  // A step whose effect on consumers is nil: the index and the bookkeeping they see stay.
  lemma QuietProducer(s: State, a: Aux, s': State, a': Aux)
    requires Inv(s, a) && SharedInv(s', a')
    requires s'.counters == s.counters && s'.items == s.items && s'.look == s.look && s'.got == s.got
    requires a'.counters == a.counters
    requires forall u :: Rely(s, a, s', a', u)
    ensures Inv(s', a')
  {
    hide SharedInv, DC.Inv, LookInv, Rely;
    AllLook(s, a, s', a');
  }

  // Block entries, homes and cells are untouched.
  lemma SharedFrom(s: State, a: Aux, s': State, a': Aux)
    requires SharedInv(s, a)
    requires BlockIndex.Inv(s'.ix, a'.x, Ahead(s'.producer)) && ProducerInv(s', a')
    requires s' == s.(ix := s'.ix, producer := s'.producer)
    requires a' == a.(x := a'.x, offered := a'.offered) && a'.x.hold == a.x.hold
    ensures SharedInv(s', a')
  {
    hide BlockIndex.Inv, BlocksInv, CellsInv, ProducerInv, TailBlockInv, OwnersInv;
    OwnersFrame(a, a', s.counters.head);
    TailBlockFrame(s, a, s', a');
    CellsSame(s, a, s', a');
    BlocksSame(s, a, s', a');
  }

  lemma IndexRely(s: State, a: Aux, s': State, a': Aux, u: Tid)
    requires SharedInv(s, a) && HeadersKept(s, a, s', a')
    requires a' == a.(x := a'.x, offered := a'.offered) && a'.x.hold == a.x.hold && a'.x.entry == a.x.entry
    requires a.offered ==> a'.offered && |s'.ix.headers| == |s.ix.headers|
    ensures Rely(s, a, s', a', u)
  {
    hide CellsInv, ProducerInv, TailBlockInv, OwnersInv, EntriesInv;
  }

  // A step on the index and the producer's own place only.
  lemma IndexStep(s: State, a: Aux, s': State, a': Aux)
    requires Inv(s, a)
    requires BlockIndex.Inv(s'.ix, a'.x, Ahead(s'.producer)) && ProducerInv(s', a')
    requires s' == s.(ix := s'.ix, producer := s'.producer)
    requires a' == a.(x := a'.x, offered := a'.offered) && a'.x.hold == a.x.hold && a'.x.entry == a.x.entry
    requires HeadersKept(s, a, s', a')
    requires a.offered ==> a'.offered && |s'.ix.headers| == |s.ix.headers|
    ensures Inv(s', a')
  {
    hide SharedInv, ProducerInv, BlockIndex.Inv, DC.Inv, LookInv, Rely;
    SharedFrom(s, a, s', a');
    forall u ensures Rely(s, a, s', a', u) {
      IndexRely(s, a, s', a', u);
    }
    QuietProducer(s, a, s', a');
  }

  lemma BeginStep(s: State, a: Aux, c: Choice)
    requires Inv(s, a) && s.producer.Resting?
    ensures Inv(ProducerStep(s, c), a)
  {
    hide BlocksInv, CellsInv, TailBlockInv, OwnersInv, DC.Inv, LookInv, EntriesInv, Keyed;
    IndexStep(s, a, ProducerStep(s, c), a);
  }

  // With room found although the window was full, its oldest block has been released.
  ghost function Slid(s: State, a: Aux): Aux {
    if s.ix.Shaped() && HasRoom(s.ix) && !Roomy(s.ix, a.x) then a.(x := a.x.(lo := a.x.lo + 1)) else a
  }

  lemma CheckStep(s: State, a: Aux, c: Choice)
    requires Inv(s, a) && s.producer.Check?
    ensures Inv(ProducerStep(s, c), Slid(s, a))
  {
    hide BlocksInv, CellsInv, TailBlockInv, OwnersInv, DC.Inv, LookInv, EntriesInv, CurrentInv;
    NextSlotIs(s.ix, a.x);
    if HasRoom(s.ix) {
      var x := RoomFound(s.ix, a.x);
    }
    IndexStep(s, a, ProducerStep(s, c), Slid(s, a));
  }

  lemma GrowStep(s: State, a: Aux, c: Choice)
    requires Inv(s, a) && s.producer.Growing?
    ensures Inv(ProducerStep(s, c), a.(x := Doubled(s.ix, a.x)))
  {
    hide BlocksInv, CellsInv, TailBlockInv, OwnersInv, DC.Inv, LookInv, EntriesInv, CurrentInv, Roomy;
    var a' := a.(x := Doubled(s.ix, a.x));
    GrownInv(s.ix, a.x);
    NextSlotIs(Grow(s.ix), a'.x);
    IndexStep(s, a, ProducerStep(s, c), a');
  }

  lemma KeyPutStep(s: State, a: Aux, c: Choice)
    requires Inv(s, a) && s.producer.PutKey?
    ensures Inv(ProducerStep(s, c), a)
  {
    hide BlocksInv, CellsInv, TailBlockInv, OwnersInv, DC.Inv, LookInv, EntriesInv, CurrentInv;
    KeyStored(s.ix, a.x);
    IndexStep(s, a, ProducerStep(s, c), a);
  }

  lemma TailPutStep(s: State, a: Aux, c: Choice)
    requires Inv(s, a) && s.producer.PutTail?
    ensures Inv(ProducerStep(s, c), a.(offered := true))
  {
    hide BlocksInv, CellsInv, TailBlockInv, OwnersInv, DC.Inv, LookInv, EntriesInv, CurrentInv;
    TailMoved(s.ix, a.x);
    IndexStep(s, a, ProducerStep(s, c), a.(offered := true));
  }

  lemma RewindStep(s: State, a: Aux, c: Choice)
    requires Inv(s, a) && s.producer.Rewind?
    ensures Inv(ProducerStep(s, c), a)
  {
    hide BlocksInv, CellsInv, TailBlockInv, OwnersInv, DC.Inv, LookInv, EntriesInv, CurrentInv;
    TailRewound(s.ix, a.x);
    IndexStep(s, a, ProducerStep(s, c), a);
  }

  lemma NullPutStep(s: State, a: Aux, c: Choice)
    requires Inv(s, a) && s.producer.PutNull?
    ensures Inv(ProducerStep(s, c), a)
  {
    hide BlocksInv, CellsInv, TailBlockInv, OwnersInv, DC.Inv, LookInv, EntriesInv, CurrentInv;
    NullStored(s.ix, a.x);
    IndexStep(s, a, ProducerStep(s, c), a);
  }

  // A block that holds no block number may change its home and count.
  lemma BlocksSpare(s: State, a: Aux, s': State, a': Aux, b: Block)
    requires BlocksInv(s, a) && (a.Home(b) == Pooled || a.Home(b) == Produced) && a'.Home(b) == Produced
    requires a'.x == a.x && a'.gone == a.gone && s'.pool == s.pool - {b}
    requires forall c | c != b :: a'.Home(c) == a.Home(c) && s'.Dequeued(c) == s.Dequeued(c)
    ensures BlocksInv(s', a')
  {
    forall j | 0 <= j < |a'.gone| && a'.x.hold[j].Blk?
      ensures var c := a'.x.hold[j].block; InUse(j, a'.Home(c), s'.Dequeued(c), a'.gone[j])
    {
      var c := a.x.hold[j].block;
      assert InUse(j, a.Home(c), s.Dequeued(c), a.gone[j]);
    }
  }

  // Requisition and Reset: only the block in the producer's hands changes.
  lemma SpareStep(s: State, a: Aux, s': State, a': Aux, b: Block)
    requires Inv(s, a) && (a.Home(b) == Pooled || a.Home(b) == Produced)
    requires s' == s.(producer := s'.producer, pool := s.pool - {b}, dequeued := s'.dequeued)
    requires a' == a.(home := a.home[b := Produced])
    requires forall c | c != b :: s'.Dequeued(c) == s.Dequeued(c)
    requires ProducerInv(s', a') && Ahead(s'.producer) == Ahead(s.producer)
    ensures Inv(s', a')
  {
    hide BlockIndex.Inv, BlocksInv, OwnersInv, CellsInv, ProducerInv, TailBlockInv, DC.Inv, LookInv, Rely;
    BlocksSpare(s, a, s', a', b);
    OwnersFrame(a, a', s.counters.head);
    TailBlockFrame(s, a, s', a');
    CellsSame(s, a, s', a');
    forall u ensures Rely(s, a, s', a', u) {
      RelySame(s, a, s', a', u);
    }
    QuietProducer(s, a, s', a');
  }

  ghost function Taken(s: State, a: Aux, c: Choice): Aux {
    if c.found.Blk? && c.found.block in s.pool then a.(home := a.home[c.found.block := Produced]) else a
  }

  lemma RequisitionStep(s: State, a: Aux, c: Choice)
    requires Inv(s, a) && s.producer.Requisition?
    ensures Inv(ProducerStep(s, c), Taken(s, a, c))
  {
    hide BlockIndex.Inv, OwnersInv, CellsInv, TailBlockInv, DC.Inv, LookInv;
    if c.found.Blk? && c.found.block in s.pool {
      SpareStep(s, a, ProducerStep(s, c), Taken(s, a, c), c.found.block);
    } else {
      assert HeadersKept(s, a, ProducerStep(s, c), a) by { HeadersSame(s, a, ProducerStep(s, c), a); }
      IndexStep(s, a, ProducerStep(s, c), a);
    }
  }

  lemma HeadersSame(s: State, a: Aux, s': State, a': Aux)
    requires SharedInv(s, a) && s'.ix == s.ix && a'.x == a.x
    ensures HeadersKept(s, a, s', a')
  {
    hide BlocksInv, CellsInv, ProducerInv, TailBlockInv, OwnersInv, EntriesInv;
  }

  lemma ResetStep(s: State, a: Aux, c: Choice)
    requires Inv(s, a) && s.producer.Reset?
    ensures Inv(ProducerStep(s, c), a.(home := a.home[s.producer.block := Produced]))
  {
    hide BlockIndex.Inv, OwnersInv, CellsInv, TailBlockInv, DC.Inv, LookInv;
    var b := s.producer.block;
    assert s.pool - {b} == s.pool;
    SpareStep(s, a, ProducerStep(s, c), a.(home := a.home[b := Produced]), b);
  }

  // The inserted block holds the next block number, with nothing emptied yet.
  ghost function Installed(s: State, a: Aux, b: Block): Aux
    requires s.ix.Shaped() && |a.x.offset| == |a.x.top| == |s.ix.headers|
  {
    a.(x := Inserted(s.ix, a.x, b), home := a.home[b := At(|a.x.entry|)], gone := a.gone + [{}], offered := false)
  }

  lemma InstalledBlocks(s: State, a: Aux, s': State, a': Aux, b: Block)
    requires BlocksInv(s, a) && a.Home(b) == Produced && s.Dequeued(b) == 0
    requires s'.dequeued == s.dequeued && s'.pool == s.pool
    requires a'.x.hold == a.x.hold + [Blk(b)] && a'.home == a.home[b := At(|a.gone|)] && a'.gone == a.gone + [{}]
    ensures BlocksInv(s', a')
  {
    forall j | 0 <= j < |a'.gone| && a'.x.hold[j].Blk?
      ensures var c := a'.x.hold[j].block; InUse(j, a'.Home(c), s'.Dequeued(c), a'.gone[j])
    {
      if j < |a.gone| {
        var c := a.x.hold[j].block;
        assert InUse(j, a.Home(c), s.Dequeued(c), a.gone[j]);
      }
    }
  }

  lemma InstalledCells(s: State, a: Aux, s': State, a': Aux, b: Block)
    requires CellsInv(s, a) && s'.cells == s.cells && s'.items == s.items
    requires a'.x.hold == a.x.hold + [Blk(b)] && a'.gone == a.gone + [{}]
    ensures CellsInv(s', a')
  {
    forall i | 0 <= i < |s'.items|
      ensures BlockOf(i) < |a'.gone| && (i in a'.gone[BlockOf(i)] || InCell(s', a'.x.hold[BlockOf(i)], i))
    {
      assert i in a.gone[BlockOf(i)] || InCell(s, a.x.hold[BlockOf(i)], i);
    }
  }

  lemma InstalledOwners(a: Aux, a': Aux, head: nat)
    requires OwnersInv(a, head) && a'.owner == a.owner && a'.gone == a.gone + [{}]
    ensures OwnersInv(a', head)
  {
  }

  lemma InstalledShared(s: State, a: Aux, c: Choice)
    requires SharedInv(s, a) && s.producer.PutValue?
    ensures s.ix.Shaped() && |a.x.offset| == |a.x.top| == |s.ix.headers|
    ensures SharedInv(ProducerStep(s, c), Installed(s, a, s.producer.block))
  {
    hide BlocksInv, CellsInv, OwnersInv, TailBlockInv, EntriesInv, CurrentInv;
    var b := s.producer.block;
    var s', a' := ProducerStep(s, c), Installed(s, a, b);
    ValueStored(s.ix, a.x, b);
    SameLengths(s, a);
    InstalledBlocks(s, a, s', a', b);
    InstalledCells(s, a, s', a', b);
    InstalledOwners(a, a', s.counters.head);
    assert TailBlockInv(s', a') by { TailBlockNow(s', a'); }
  }

  lemma SameLengths(s: State, a: Aux)
    requires SharedInv(s, a)
    ensures |a.x.entry| == |a.x.hold| == |a.gone|
  {
  }

  lemma TailBlockNow(s: State, a: Aux)
    requires |a.x.hold| > 0 && a.x.hold[|a.x.hold| - 1] == Blk(s.tailBlock)
    ensures TailBlockInv(s, a)
  {
  }

  lemma InstalledRely(s: State, a: Aux, c: Choice, u: Tid)
    requires SharedInv(s, a) && s.producer.PutValue? && |a.x.offset| == |a.x.top| == |s.ix.headers|
    ensures Rely(s, a, ProducerStep(s, c), Installed(s, a, s.producer.block), u)
  {
    hide CellsInv, TailBlockInv, OwnersInv, EntriesInv;
  }

  lemma ValuePutStep(s: State, a: Aux, c: Choice)
    requires Inv(s, a) && s.producer.PutValue?
    ensures |a.x.offset| == |a.x.top| == |s.ix.headers|
    ensures Inv(ProducerStep(s, c), Installed(s, a, s.producer.block))
  {
    hide SharedInv, DC.Inv, LookInv, Rely, BlocksInv, CellsInv, ProducerInv, BlockIndex.Inv;
    InstalledShared(s, a, c);
    var s', a' := ProducerStep(s, c), Installed(s, a, s.producer.block);
    forall u ensures Rely(s, a, s', a', u) {
      InstalledRely(s, a, c, u);
    }
    QuietProducer(s, a, s', a');
  }

  // ---------------------------------------------------------------------------------------
  // Writing and publishing an element

  lemma WrittenCells(s: State, a: Aux, c: Choice)
    requires CountersInv(s, a) && SharedInv(s, a) && s.producer.Write?
    ensures CellsInv(ProducerStep(s, c), a)
  {
    hide BlockIndex.Inv, OwnersInv, DC.Inv;
    var s' := ProducerStep(s, c);
    forall i | 0 <= i < |s'.items|
      ensures BlockOf(i) < |a.gone| && (i in a.gone[BlockOf(i)] || InCell(s', a.x.hold[BlockOf(i)], i))
    {
      if i !in a.gone[BlockOf(i)] {
        assert InCell(s, a.x.hold[BlockOf(i)], i);
        OtherCell(s, a, i);
      }
    }
  }

  // The cell being written is not the cell of an element still in the queue.
  lemma OtherCell(s: State, a: Aux, i: nat)
    requires CountersInv(s, a) && SharedInv(s, a) && s.producer.Write?
    requires i < |s.items| && BlockOf(i) < |a.gone| && a.x.hold[BlockOf(i)].Blk?
    ensures (a.x.hold[BlockOf(i)].block, i % BLOCK_SIZE) != (s.tailBlock, s.counters.tail % BLOCK_SIZE)
  {
    hide BlockIndex.Inv, OwnersInv, CellsInv, DC.Inv;
    SameLengths(s, a);
    var k, n := BlockOf(i), |a.gone|;
    assert InUse(k, a.Home(a.x.hold[k].block), s.Dequeued(a.x.hold[k].block), a.gone[k]);
    assert a.x.hold[n - 1] == Blk(s.tailBlock);
    assert InUse(n - 1, a.Home(s.tailBlock), s.Dequeued(s.tailBlock), a.gone[n - 1]);
  }

  lemma WriteStep(s: State, a: Aux, c: Choice)
    requires Inv(s, a) && s.producer.Write?
    ensures Inv(ProducerStep(s, c), a)
  {
    hide BlockIndex.Inv, BlocksInv, OwnersInv, CellsInv, TailBlockInv, DC.Inv, LookInv, Rely;
    var s' := ProducerStep(s, c);
    WrittenCells(s, a, c);
    BlocksSame(s, a, s', a);
    TailBlockFrame(s, a, s', a);
    forall u ensures Rely(s, a, s', a, u) {
      RelySame(s, a, s', a, u);
    }
    QuietProducer(s, a, s', a);
  }

  lemma PublishedCells(s: State, a: Aux, c: Choice)
    requires CountersInv(s, a) && SharedInv(s, a) && s.producer.Publish?
    ensures CellsInv(ProducerStep(s, c), a)
  {
    hide BlockIndex.Inv, OwnersInv, DC.Inv, BlocksInv;
    SameLengths(s, a);
    var s' := ProducerStep(s, c);
    forall i | 0 <= i < |s'.items|
      ensures BlockOf(i) < |a.gone| && (i in a.gone[BlockOf(i)] || InCell(s', a.x.hold[BlockOf(i)], i))
    {
      if i < |s.items| {
        assert i in a.gone[BlockOf(i)] || InCell(s, a.x.hold[BlockOf(i)], i);
      }
    }
  }

  lemma PublishStep(s: State, a: Aux, c: Choice)
    requires Inv(s, a) && s.producer.Publish?
    ensures Inv(ProducerStep(s, c), a)
  {
    hide BlockIndex.Inv, BlocksInv, OwnersInv, CellsInv, DC.Inv, LookInv, Rely;
    var s' := ProducerStep(s, c);
    PublishedCells(s, a, c);
    BlocksSame(s, a, s', a);
    DC.PublishInv(s.counters, a.counters, 1);
    forall u ensures Rely(s, a, s', a, u) {
      RelySame(s, a, s', a, u);
    }
    AllLook(s, a, s', a);
    forall j | 0 <= j < |s'.got| ensures Right(s', s'.got[j]) {
      assert Right(s, s.got[j]);
    }
  }

  ghost function TrackProducer(s: State, a: Aux, c: Choice): Aux {
    match s.producer
    case Check(_) => Slid(s, a)
    case Growing(_) => if s.ix.Shaped() then a.(x := Doubled(s.ix, a.x)) else a
    case PutTail(_, _, _) => a.(offered := true)
    case Requisition(_, _) => Taken(s, a, c)
    case Reset(_, _, b) => a.(home := a.home[b := Produced])
    case PutValue(_, _, b) =>
      if s.ix.Shaped() && |a.x.offset| == |a.x.top| == |s.ix.headers| then Installed(s, a, b) else a
    case _ => a
  }

  lemma ProducerInvStep(s: State, a: Aux, c: Choice)
    requires Inv(s, a)
    ensures s.ix.Shaped() && Inv(ProducerStep(s, c), TrackProducer(s, a, c))
  {
    hide CountersInv, BlocksInv, OwnersInv, CellsInv, TailBlockInv, LookInv, Installed, Slid, Taken, Doubled, HeadersInv, CurrentInv, EntriesInv;
    match s.producer {
      case Resting => BeginStep(s, a, c);
      case Check(_) => CheckStep(s, a, c);
      case Growing(_) => GrowStep(s, a, c);
      case PutKey(_, _, _) => KeyPutStep(s, a, c);
      case PutTail(_, _, _) => TailPutStep(s, a, c);
      case Requisition(_, _) => RequisitionStep(s, a, c);
      case Rewind(_) => RewindStep(s, a, c);
      case PutNull(_) => NullPutStep(s, a, c);
      case Reset(_, _, _) => ResetStep(s, a, c);
      case PutValue(_, _, _) => ValuePutStep(s, a, c);
      case Write(_) => WriteStep(s, a, c);
      case Publish(_) => PublishStep(s, a, c);
    }
  }
}
