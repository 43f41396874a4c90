/**
 What holds over every run of an implicit producer and its consumers: lookups find the right
 block, no null block is dereferenced, and each claimed index is delivered exactly once with
 the element enqueued at that index.
 */
module QueueRuns {
  import opened Sums
  import BlockIndex
  import opened ImplicitQueue
  import DC = DequeueCounters

  // ---------------------------------------------------------------------------------------
  // Deliveries

  predicate Pending(l: Look, i: int) {
    match l
    case AtHeader(first, end) => first <= i < end
    case AtTail(first, end, _) => first <= i < end
    case AtKey(first, end, _, _) => first <= i < end
    case AtValue(first, end, _, _) => first <= i < end
    case Reading(first, _, end, _, _, _) => first <= i < end
    case Clearing(next, end, _, _, _) => next <= i < end
    case Freeing(next, end, _, _, _) => next <= i < end
    case _ => false
  }

  ghost predicate Gone(a: Aux, i: nat) {
    BlockOf(i) < |a.gone| && i in a.gone[BlockOf(i)]
  }

  // Read by its owner but not yet marked empty.
  predicate Read(l: Look, i: int) {
    l.Reading? && l.first <= i < l.next
  }

  ghost predicate InHand(s: State, a: Aux, i: nat) {
    i in a.owner && Read(s.Look(a.owner[i]), i)
  }

  ghost predicate Delivered(got: seq<Delivery>, i: nat) {
    exists j :: 0 <= j < |got| && got[j].index == i
  }

  ghost predicate OncePerIndex(got: seq<Delivery>) {
    forall j, k | 0 <= j < k < |got| :: got[j].index != got[k].index
  }

  ghost predicate HistoryInv(s: State, a: Aux) {
    && (forall i | i in a.owner :: Pending(s.Look(a.owner[i]), i))
    && (forall i: nat | i < s.counters.head :: i in a.owner || Gone(a, i))
    && (forall i: nat :: Delivered(s.got, i) <==> Gone(a, i) || InHand(s, a, i))
    && OncePerIndex(s.got)
  }

  // A step that moves only one consumer, which neither had nor has read anything.
  lemma HistoryMove(s: State, a: Aux, s': State, a': Aux, t: Tid)
    requires HistoryInv(s, a)
    requires a'.owner == a.owner && a'.gone == a.gone && s'.got == s.got && s'.counters.head == s.counters.head
    requires forall u | u != t :: s'.Look(u) == s.Look(u)
    requires forall i | i in a.owner && a.owner[i] == t && Pending(s.Look(t), i) ::
               Pending(s'.Look(t), i) && !Read(s.Look(t), i) && !Read(s'.Look(t), i)
    ensures HistoryInv(s', a')
  {
    forall i: nat ensures Delivered(s'.got, i) <==> Gone(a', i) || InHand(s', a', i) {
      assert Delivered(s.got, i) <==> Gone(a, i) || InHand(s, a, i);
      assert i in a.owner ==> Pending(s.Look(a.owner[i]), i);
    }
  }

  lemma HistoryRead(s: State, a: Aux, t: Tid)
    requires Inv(s, a) && HistoryInv(s, a) && t in s.look && s.look[t].Reading?
    requires s.look[t].next < Stop(s.look[t].first, s.look[t].end)
    ensures HistoryInv(LookStep(s, t), Anchored(s, a, t))
  {
    hide BlockIndex.Inv, BlocksInv, CellsInv, ProducerInv, TailBlockInv, CountersInv;
    assert LookInv(s, a, t);
    var Reading(first, next, end, h, slot, b) := s.look[t];
    var s', a' := LookStep(s, t), Anchored(s, a, t);
    SameBlock(first, next, end);
    assert next in a.owner && a.owner[next] == t;
    assert !Gone(a, next) && !InHand(s, a, next);
    forall i: nat ensures Delivered(s'.got, i) <==> Gone(a', i) || InHand(s', a', i) {
      DeliveredMore(s.got, s'.got[|s.got|], i);
    }
    assert forall j | 0 <= j < |s.got| :: Delivered(s.got, s.got[j].index);
  }

  lemma DeliveredMore(got: seq<Delivery>, d: Delivery, i: nat)
    ensures Delivered(got + [d], i) <==> Delivered(got, i) || d.index == i
  {
    if Delivered(got, i) {
      var j :| 0 <= j < |got| && got[j].index == i;
      assert (got + [d])[j].index == i;
    } else if d.index == i {
      assert (got + [d])[|got|].index == i;
    }
  }

  lemma HistoryEmpty(s: State, a: Aux, t: Tid)
    requires Inv(s, a) && HistoryInv(s, a) && AtEnd(s, a, t)
    ensures HistoryInv(LookStep(s, t), Emptied(s, a, t))
  {
    hide BlockIndex.Inv, BlocksInv, CellsInv, ProducerInv, TailBlockInv, CountersInv, OwnersInv;
    assert LookInv(s, a, t);
    EmptiedCounts(s, a, t);
    var Reading(first, next, end, h, slot, b) := s.look[t];
    var s', a' := LookStep(s, t), Emptied(s, a, t);
    forall i: nat ensures Gone(a', i) <==> Gone(a, i) || first <= i < next {
      if first <= i < next {
        SameBlock(first, i, end);
      }
      InItsBlock(i);
    }
    forall i: nat ensures Delivered(s'.got, i) <==> Gone(a', i) || InHand(s', a', i) {
      assert Delivered(s.got, i) <==> Gone(a, i) || InHand(s, a, i);
      if first <= i < next {
        assert i in a.owner && a.owner[i] == t;
      }
    }
  }

  // Claiming head .. head + g - 1 for a consumer that was finished.
  lemma HistoryTake(s: State, a: Aux, s': State, a': Aux, t: Tid, g: nat)
    requires HistoryInv(s, a) && s.Look(t) == Done
    requires s'.got == s.got && a'.gone == a.gone && s'.counters.head == s.counters.head + g
    requires s'.Look(t) == AtHeader(s.counters.head, s.counters.head + g) && forall u | u != t :: s'.Look(u) == s.Look(u)
    requires forall i | i in a.owner :: i in a'.owner && a'.owner[i] == a.owner[i]
    requires forall i | s.counters.head <= i < s'.counters.head :: i in a'.owner
    requires forall i | i in a'.owner && i !in a.owner :: s.counters.head <= i < s'.counters.head && a'.owner[i] == t
    ensures HistoryInv(s', a')
  {
    forall i: nat ensures Delivered(s'.got, i) <==> Gone(a', i) || InHand(s', a', i) {
      assert Delivered(s.got, i) <==> Gone(a, i) || InHand(s, a, i);
      assert i in a.owner ==> Pending(s.Look(a.owner[i]), i);
    }
    forall i | i in a'.owner ensures Pending(s'.Look(a'.owner[i]), i) {
      assert i in a.owner ==> Pending(s.Look(a.owner[i]), i);
    }
    forall i: nat | i < s'.counters.head ensures i in a'.owner || Gone(a', i) {
      assert i < s.counters.head ==> i in a.owner || Gone(a, i);
    }
  }

  lemma HistoryClaim(s: State, a: Aux, t: Tid, max: nat)
    requires Inv(s, a) && HistoryInv(s, a) && t in s.look && s.look[t] == Done && max > 0
    ensures HistoryInv(CountStep(s, t, max), Claimed(s, a, t))
  {
    hide SharedInv, CountersInv, LookInv, DC.Track, HistoryInv, Pending;
    var s', a' := CountStep(s, t, max), Claimed(s, a, t);
    if s.counters.Pc(t).Take? {
      HistoryTake(s, a, s', a', t, s.counters.Pc(t).granted);
    } else {
      HistorySame(s, a, s', a');
    }
  }

  lemma HistorySame(s: State, a: Aux, s': State, a': Aux)
    requires HistoryInv(s, a) && a'.owner == a.owner && a'.gone == a.gone
    requires s'.got == s.got && s'.look == s.look && s'.counters.head == s.counters.head
    ensures HistoryInv(s', a')
  {
    HistoryExtend(s, a, s', a');
  }

  lemma HistoryExtend(s: State, a: Aux, s': State, a': Aux)
    requires HistoryInv(s, a) && a'.owner == a.owner && (a'.gone == a.gone || a'.gone == a.gone + [{}])
    requires s'.got == s.got && s'.look == s.look && s'.counters.head == s.counters.head
    ensures HistoryInv(s', a')
  {
    forall i: nat ensures Gone(a', i) <==> Gone(a, i) {
    }
    forall i: nat ensures Delivered(s'.got, i) <==> Gone(a', i) || InHand(s', a', i) {
      assert Delivered(s.got, i) <==> Gone(a, i) || InHand(s, a, i);
    }
  }

  lemma HistoryLookup(s: State, a: Aux, t: Tid)
    requires Inv(s, a) && HistoryInv(s, a) && t in s.look
    requires s.look[t].AtHeader? || s.look[t].AtTail? || s.look[t].AtKey? || s.look[t].AtValue?
    ensures HistoryInv(LookStep(s, t), Anchored(s, a, t))
  {
    hide SharedInv, CountersInv, HistoryInv;
    ConsumerInv(s, a, t, 1);
    assert LookInv(LookStep(s, t), Anchored(s, a, t), t);
    HistoryMove(s, a, LookStep(s, t), Anchored(s, a, t), t);
  }

  lemma HistoryRelease(s: State, a: Aux, t: Tid)
    requires Inv(s, a) && HistoryInv(s, a) && t in s.look && (s.look[t].Clearing? || s.look[t].Freeing?)
    ensures HistoryInv(LookStep(s, t), TrackConsumer(s, a, t))
  {
    hide SharedInv, CountersInv, HistoryInv;
    assert LookInv(s, a, t);
    if s.look[t].Freeing? && s.look[t].next < s.look[t].end {
      assert SlotIs(s, a, s.look[t].header, BlockOf(s.look[t].next) - 1, s.look[t].slot);
    }
    HistoryMove(s, a, LookStep(s, t), TrackConsumer(s, a, t), t);
  }

  lemma HistoryConsumer(s: State, a: Aux, t: Tid, max: nat)
    requires Inv(s, a) && HistoryInv(s, a) && t in s.look && max > 0
    ensures HistoryInv(ConsumerStep(s, t, max), TrackConsumer(s, a, t))
  {
    hide SharedInv, CountersInv, HistoryInv, Anchored, Emptied, Cleared, Freed, Claimed, LookStep, CountStep;
    assert LookInv(s, a, t);
    match s.look[t] {
      case Done => HistoryClaim(s, a, t, max);
      case Reading(first, next, end, _, _, _) =>
        if next < Stop(first, end) {
          HistoryRead(s, a, t);
        } else {
          HistoryEmpty(s, a, t);
        }
      case Clearing(_, _, _, _, _) => HistoryRelease(s, a, t);
      case Freeing(_, _, _, _, _) => HistoryRelease(s, a, t);
      case _ => HistoryLookup(s, a, t);
    }
  }

  lemma ProducerQuiet(s: State, c: Choice)
    requires s.ix.Shaped()
    ensures var s' := ProducerStep(s, c);
      s'.got == s.got && s'.look == s.look && s'.counters.head == s.counters.head
  {
    hide BlockIndex.Grow, BlockIndex.Grown, BlockIndex.HasRoom, BlockIndex.StoreKey, BlockIndex.StoreTail, BlockIndex.StoreValue;
  }

  lemma TrackQuiet(s: State, a: Aux, c: Choice)
    ensures var a' := TrackProducer(s, a, c);
      a'.owner == a.owner && (a'.gone == a.gone || a'.gone == a.gone + [{}])
  {
  }

  lemma HistoryProducer(s: State, a: Aux, c: Choice)
    requires s.ix.Shaped() && HistoryInv(s, a)
    ensures HistoryInv(ProducerStep(s, c), TrackProducer(s, a, c))
  {
    hide HistoryInv, ProducerStep, TrackProducer;
    ProducerQuiet(s, c);
    TrackQuiet(s, a, c);
    HistoryExtend(s, a, ProducerStep(s, c), TrackProducer(s, a, c));
  }

  // ---------------------------------------------------------------------------------------
  // Runs

  ghost predicate Init(s: State) {
    && DC.Init(s.counters)
    && s.ix == BlockIndex.First()
    && s.producer == Resting
    && s.look.Keys == s.counters.pc.Keys && (forall t | t in s.look :: s.look[t] == Done)
    && s.items == [] && s.got == []
  }

  datatype Event = Produce(choice: Choice) | Consume(t: Tid, max: nat)

  predicate Enabled(s: State, e: Event) {
    match e
    case Produce(_) => s.ix.Shaped()
    case Consume(t, _) => t in s.look
  }

  function Step(s: State, e: Event): State
    requires Enabled(s, e)
  {
    match e
    case Produce(c) => ProducerStep(s, c)
    case Consume(t, max) => ConsumerStep(s, t, max)
  }

  ghost predicate Run(s: State, events: seq<Event>, s': State)
    decreases |events|
  {
    if events == [] then s' == s else Enabled(s, events[0]) && Run(Step(s, events[0]), events[1..], s')
  }

  // Every dequeue asks for at least one element.
  predicate AsksForSome(e: Event) {
    e.Consume? ==> e.max > 0
  }

  predicate AllAsk(events: seq<Event>) {
    forall e | e in events :: AsksForSome(e)
  }

  ghost predicate Reachable(s: State) {
    exists s0, events :: Init(s0) && AllAsk(events) && Run(s0, events, s)
  }

  lemma {:induction false} RunLonger(s: State, events: seq<Event>, s': State, e: Event)
    requires Run(s, events, s') && Enabled(s', e)
    ensures Run(s, events + [e], Step(s', e))
    decreases |events|
  {
    hide Step, Enabled;
    if events == [] {
      assert events + [e] == [e];
      assert Run(Step(s, e), [e][1..], Step(s, e));
    } else {
      RunLonger(Step(s, events[0]), events[1..], s', e);
      assert (events + [e])[1..] == events[1..] + [e];
    }
  }

  lemma ReachableStep(s: State, e: Event)
    requires Reachable(s) && Enabled(s, e) && AsksForSome(e)
    ensures Reachable(Step(s, e))
  {
    hide Init, Step, Enabled, Run;
    var s0, events :| Init(s0) && AllAsk(events) && Run(s0, events, s);
    RunLonger(s0, events, s, e);
  }

  lemma InitInv(s: State) returns (a: Aux)
    requires Init(s)
    ensures Inv(s, a) && HistoryInv(s, a)
    ensures a.x == BlockIndex.Aux(0, [], [], [0], [0]) && a.home == map b | b in s.pool :: Pooled
  {
    a := ImplicitQueue.Aux(DC.Aux({}, {}), BlockIndex.Aux(0, [], [], [0], [0]), map b | b in s.pool :: Pooled, [], map[], map[], false);
    DC.InitInv(s.counters);
    BlockIndex.FirstInv();
    InitParts(s, a);
  }

  lemma InitParts(s: State, a: Aux)
    requires Init(s) && a.owner == map[] && a.gone == [] && !a.offered && a.x == BlockIndex.Aux(0, [], [], [0], [0])
    requires forall b | b in s.pool :: a.Home(b) == Pooled
    ensures BlocksInv(s, a) && OwnersInv(a, 0) && CellsInv(s, a) && ProducerInv(s, a) && TailBlockInv(s, a)
    ensures HistoryInv(s, a)
    ensures forall t :: LookInv(s, a, t)
  {
  }

  lemma {:induction false} RunInv(s: State, a: Aux, events: seq<Event>, s': State) returns (a': Aux)
    requires Inv(s, a) && HistoryInv(s, a) && Run(s, events, s') && AllAsk(events)
    ensures Inv(s', a') && HistoryInv(s', a')
    decreases |events|
  {
    hide ImplicitQueue.Inv, HistoryInv;
    if events == [] {
      a' := a;
    } else {
      assert AsksForSome(events[0]) && AllAsk(events[1..]);
      match events[0] {
        case Produce(c) =>
          ProducerInvStep(s, a, c);
          HistoryProducer(s, a, c);
          a' := RunInv(ProducerStep(s, c), TrackProducer(s, a, c), events[1..], s');
        case Consume(t, max) =>
          ConsumerInv(s, a, t, max);
          HistoryConsumer(s, a, t, max);
          a' := RunInv(ConsumerStep(s, t, max), TrackConsumer(s, a, t), events[1..], s');
      }
    }
  }

  lemma ReachableInv(s: State) returns (a: Aux)
    requires Reachable(s)
    ensures Inv(s, a) && HistoryInv(s, a)
  {
    var s0, events :| Init(s0) && AllAsk(events) && Run(s0, events, s);
    a := InitInv(s0);
    a := RunInv(s0, a, events, s);
  }

  // ---------------------------------------------------------------------------------------
  // What every run guarantees

  // No consumer ever finds a null block.
  lemma NoFault(s: State, t: Tid)
    requires Reachable(s)
    ensures s.Look(t) != Fault
  {
    var a := ReachableInv(s);
    assert LookInv(s, a, t);
  }

  // Whatever header a consumer loaded, and whatever the producer and the other consumers did
  // since, the slot it computed has the base of its index's block as key, and the block there
  // holds the element of every claimed index in that block.
  lemma LookupFindsTheBlock(s: State, t: Tid, i: nat)
    requires Reachable(s) && s.Look(t).AtValue?
    requires s.Look(t).first <= i < Stop(s.Look(t).first, s.Look(t).end)
    ensures var e := EntryAt(s.ix, s.Look(t).header, s.Look(t).slot);
      && s.ix.Key(e) == BlockOf(i) * BlockIndex.BLOCK_SIZE
      && s.ix.Value(e).Blk?
      && i < |s.items| && s.Cell(s.ix.Value(e).block, i % BlockIndex.BLOCK_SIZE) == s.items[i]
  {
    var a := ReachableInv(s);
    assert LookInv(s, a, t);
    ValueRead(s, a, t);
    SameBlock(s.Look(t).first, i, s.Look(t).end);
    OwnedCell(s, a, t, i);
  }

  lemma OwnedCell(s: State, a: Aux, t: Tid, i: nat)
    requires Inv(s, a) && i in a.owner
    ensures BlockOf(i) < |a.x.hold| && InCell(s, a.x.hold[BlockOf(i)], i)
  {
    hide BlockIndex.Inv, BlocksInv, ProducerInv, TailBlockInv, LookInv;
    HeadBelowTail(s, a);
  }

  // A consumer in the middle of reading finds the enqueued elements in its block.
  lemma ReadingSeesTheItems(s: State, t: Tid, i: nat)
    requires Reachable(s) && s.Look(t).Reading?
    requires s.Look(t).first <= i < Stop(s.Look(t).first, s.Look(t).end)
    ensures i < |s.items| && s.Cell(s.Look(t).block, i % BlockIndex.BLOCK_SIZE) == s.items[i]
  {
    var a := ReachableInv(s);
    assert LookInv(s, a, t);
    SameBlock(s.Look(t).first, i, s.Look(t).end);
    OwnedCell(s, a, t, i);
  }

  // Each delivery is the element enqueued at its index, and no index is delivered twice.
  lemma DeliveriesAreRight(s: State, j: nat, k: nat)
    requires Reachable(s) && j < |s.got| && k < |s.got|
    ensures s.got[j].index < s.counters.head <= |s.items|
    ensures s.got[j].item == s.items[s.got[j].index]
    ensures j != k ==> s.got[j].index != s.got[k].index
  {
    hide LookInv, ProducerInv, BlockIndex.Inv, BlocksInv, CellsInv;
    var a := ReachableInv(s);
    HeadBelowTail(s, a);
    assert Right(s, s.got[j]);
    assert Delivered(s.got, s.got[j].index);
  }

  // Once every consumer has finished, the delivered indices are exactly those below the head.
  lemma QuiescentDeliveries(s: State, i: nat)
    requires Reachable(s) && forall t | t in s.look :: s.look[t] == Done
    ensures Delivered(s.got, i) <==> i < s.counters.head
  {
    hide LookInv, ProducerInv, BlockIndex.Inv, BlocksInv, CellsInv;
    var a := ReachableInv(s);
    assert i in a.owner ==> Pending(s.Look(a.owner[i]), i);
    assert Delivered(s.got, i) <==> Gone(a, i) || InHand(s, a, i);
  }

  // ---------------------------------------------------------------------------------------
  // The block of the head index

  // The slot a consumer computes for index i when nobody else steps meanwhile, and its value.
  function SlotNow(x: BlockIndex.Index, i: nat): nat
    requires x.Shaped()
  {
    var h := |x.headers| - 1;
    BlockIndex.FindSlot(TailOf(x, h), x.Key(EntryAt(x, h, TailOf(x, h))), BlockOf(i) * BlockIndex.BLOCK_SIZE, |x.Current().index|)
  }

  function FoundNow(x: BlockIndex.Index, i: nat): BlockIndex.Value
    requires x.Shaped()
  {
    x.Value(EntryAt(x, |x.headers| - 1, SlotNow(x, i)))
  }

  // The producer has inserted the block of the head index.
  predicate HeadInserted(s: State) {
    s.counters.head < s.counters.tail || s.counters.head % BlockIndex.BLOCK_SIZE != 0 || s.producer.Write? || s.producer.Publish?
  }

  lemma HeadIsHeld(s: State, a: Aux)
    requires Inv(s, a) && HeadInserted(s)
    ensures var k := BlockOf(s.counters.head); k < |a.x.hold| && a.x.hold[k].Blk?
  {
    hide LookInv, BlockIndex.Inv, CellsInv, TailBlockInv, DC.Inv;
    HeadBelowTail(s, a);
    InItsBlock(s.counters.head);
    HoldIsEntry(s, a);
  }

  lemma HoldIsEntry(s: State, a: Aux)
    requires SharedInv(s, a)
    ensures |a.x.hold| == |a.x.entry| && (forall k | 0 <= k < a.x.lo && k < |a.x.hold| :: !a.x.hold[k].Blk?)
  {
    hide BlocksInv, OwnersInv, CellsInv, ProducerInv, TailBlockInv;
  }

  lemma HeadKey(s: State, a: Aux)
    requires Inv(s, a) && HeadInserted(s)
    ensures s.ix.Shaped() && SlotIs(s, a, |s.ix.headers| - 1, BlockOf(s.counters.head), SlotNow(s.ix, s.counters.head))
  {
    hide LookInv, OwnersInv, CellsInv, BlocksInv, TailBlockInv, DC.Inv;
    var i, h := s.counters.head, |s.ix.headers| - 1;
    HeadIsHeld(s, a);
    HoldIsEntry(s, a);
    TailRead(s, a, i, i + 1, h);
    var k := TailBlockNumber(s, a, h);
    if k < a.x.top[h] {
      BlockIndex.SlotHolds(s.ix, a.x, Ahead(s.producer), h, k);
    }
    BlockIndex.SlotFound(a.x.offset[h], k, BlockOf(i), |s.ix.headers[h].index|);
  }

  lemma HeadValue(s: State, a: Aux)
    requires Inv(s, a) && HeadInserted(s)
    ensures s.ix.Shaped() && BlockOf(s.counters.head) < |a.x.hold| && FoundNow(s.ix, s.counters.head) == a.x.hold[BlockOf(s.counters.head)]
    ensures FoundNow(s.ix, s.counters.head).Blk?
  {
    hide LookInv, OwnersInv, CellsInv, BlocksInv, ProducerInv, TailBlockInv, DC.Inv, SlotNow;
    HeadIsHeld(s, a);
    HeadKey(s, a);
    HoldIsEntry(s, a);
    BlockIndex.SlotHolds(s.ix, a.x, Ahead(s.producer), |s.ix.headers| - 1, BlockOf(s.counters.head));
  }

  lemma HeadCell(s: State, a: Aux)
    requires Inv(s, a) && s.counters.head < |s.items| && BlockOf(s.counters.head) < |a.x.hold| && a.x.hold[BlockOf(s.counters.head)].Blk?
    ensures s.Cell(a.x.hold[BlockOf(s.counters.head)].block, s.counters.head % BlockIndex.BLOCK_SIZE) == s.items[s.counters.head]
  {
    hide LookInv, BlocksInv, ProducerInv, TailBlockInv, DC.Inv, BlockIndex.Inv;
  }

  // Looked up at once, the block of the head index is found whenever it is in the index, whether
  // or not anybody claimed that index; so a dequeue of at most zero elements can miss it only at
  // the boundary of two blocks with nothing enqueued beyond, or when others step in between.
  lemma HeadLookup(s: State)
    requires Reachable(s) && HeadInserted(s)
    ensures s.ix.Shaped() && FoundNow(s.ix, s.counters.head).Blk?
    ensures s.counters.head < |s.items| ==>
      s.Cell(FoundNow(s.ix, s.counters.head).block, s.counters.head % BlockIndex.BLOCK_SIZE) == s.items[s.counters.head]
  {
    hide Reachable, Inv, FoundNow, HeadInserted;
    var a := ReachableInv(s);
    HeadValue(s, a);
    if s.counters.head < |s.items| { HeadCell(s, a); }
  }
}
