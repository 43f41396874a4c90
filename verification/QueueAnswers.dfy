/**
 What a dequeue delivers when nobody else steps meanwhile.
 */
module QueueAnswers {
  import opened Sums
  import BlockIndex
  import opened ImplicitQueue
  import opened QueueRuns
  import DC = DequeueCounters

  // ---------------------------------------------------------------------------------------
  // One consumer alone

  predicate AtRest(s: State, t: Tid) {
    s.Look(t) == Done && s.counters.Pc(t) == DC.Idle
  }

  ghost predicate AllRest(s: State) {
    forall t | t in s.look :: AtRest(s, t)
  }

  // n steps of t lead from s to s'; strictly between them t is in its dequeue.
  ghost predicate Dequeues(s: State, t: Tid, max: nat, n: nat, s': State)
    decreases n
  {
    && n > 0 && t in s.look
    && var m := ConsumerStep(s, t, max);
       if n == 1 then s' == m else !AtRest(m, t) && Dequeues(m, t, max, n - 1, s')
  }

  lemma {:induction false} DequeuesOn(s: State, t: Tid, max: nat, j: nat, m: State, n: nat, s': State)
    requires Dequeues(s, t, max, j, m) && !AtRest(m, t) && Dequeues(m, t, max, n, s')
    ensures Dequeues(s, t, max, j + n, s')
    decreases j
  {
    hide ConsumerStep;
    if j > 1 { DequeuesOn(ConsumerStep(s, t, max), t, max, j - 1, m, n, s'); }
  }

  lemma Moves(s: State, t: Tid, max: nat) returns (s': State)
    requires Reachable(s) && t in s.look && max > 0
    ensures s' == ConsumerStep(s, t, max) && Dequeues(s, t, max, 1, s') && Reachable(s')
  {
    hide ConsumerStep, Reachable;
    ReachableStep(s, Consume(t, max));
    s' := ConsumerStep(s, t, max);
  }

  // ---------------------------------------------------------------------------------------
  // Claiming

  lemma NothingWeighs(pc: map<DC.Tid, DC.Pc>, w: DC.Pc -> nat)
    requires w(DC.Idle) == 0 && forall t | t in pc :: pc[t] == DC.Idle
    ensures Sum(Weights(pc, w)) == 0
  {
    SumIsZero(Weights(pc, w));
  }

  // At rest the optimistic count is the head index and the overcommit.
  lemma RestBalance(s: State)
    requires Reachable(s) && AllRest(s)
    ensures s.counters.optimistic == s.counters.head + s.counters.overcommit
    ensures s.counters.head <= s.counters.tail == |s.items|
  {
    hide Reachable, SharedInv, LookInv, HistoryInv;
    var a := ReachableInv(s);
    HeadBelowTail(s, a);
    forall t | t in s.counters.pc ensures s.counters.pc[t] == DC.Idle {
      assert t in s.look && AtRest(s, t);
    }
    NothingWeighs(s.counters.pc, DC.Undecided);
    NothingWeighs(s.counters.pc, DC.Returning);
    NothingWeighs(s.counters.pc, DC.Entitled);
  }

  ghost predicate OthersStay(s: State, t: Tid, s': State) {
    && s'.look.Keys == s.look.Keys
    && forall u | u != t :: s'.Look(u) == s.Look(u) && s'.counters.Pc(u) == s.counters.Pc(u)
  }

  // Nothing but the counters and t's place has changed.
  ghost predicate Counted(s: State, t: Tid, s': State) {
    && s' == s.(counters := s'.counters, look := s'.look)
    && s'.counters.tail == s.counters.tail && OthersStay(s, t, s')
  }

  // From rest to the test of the optimistic count.
  lemma Loads(s: State, t: Tid, max: nat) returns (s': State)
    requires Reachable(s) && t in s.look && max > 0 && AtRest(s, t)
    ensures Dequeues(s, t, max, 3, s') && Reachable(s') && Counted(s, t, s')
    ensures s'.counters == s.counters.(pc := s'.counters.pc) && s'.Look(t) == Done
    ensures s'.counters.Pc(t) == DC.LoadOptimistic(max, s.counters.tail, s.counters.overcommit)
  {
    hide Reachable, Dequeues, LookStep;
    var s1 := Moves(s, t, max);
    var s2 := Moves(s1, t, max);
    DequeuesOn(s, t, max, 1, s1, 1, s2);
    s' := Moves(s2, t, max);
    DequeuesOn(s, t, max, 2, s2, 1, s');
  }

  // From the reservation to the claimed range.
  lemma Claims(s: State, t: Tid, max: nat) returns (s': State)
    requires Reachable(s) && t in s.look && max > 0 && s.Look(t) == Done && s.counters.Pc(t).Reserve?
    requires s.counters.Pc(t).count <= s.counters.tail - (s.counters.optimistic - s.counters.Pc(t).over)
    ensures var d := s.counters.Pc(t).count;
      && Dequeues(s, t, max, 3, s') && Reachable(s') && Counted(s, t, s')
      && s'.counters.Pc(t) == DC.Idle && s'.counters.head == s.counters.head + d
      && s'.Look(t) == AtHeader(s.counters.head, s.counters.head + d)
  {
    hide Reachable, Dequeues, LookStep;
    var s1 := Moves(s, t, max);
    var s2 := Moves(s1, t, max);
    DequeuesOn(s, t, max, 1, s1, 1, s2);
    PositiveClaim(s);
    s' := Moves(s2, t, max);
    DequeuesOn(s, t, max, 2, s2, 1, s');
  }

  lemma PositiveClaim(s: State)
    requires Reachable(s)
    ensures forall t | t in s.counters.pc :: Positive(s.counters.pc[t])
    ensures s.look.Keys == s.counters.pc.Keys
  {
    hide Reachable, SharedInv, LookInv, HistoryInv;
    var a := ReachableInv(s);
  }

  // ---------------------------------------------------------------------------------------
  // Delivering

  // The elements of indices lo .. hi - 1, in order.
  function Deliveries(t: Tid, items: seq<Item>, lo: nat, hi: nat): seq<Delivery>
    requires lo <= hi <= |items|
  {
    seq(hi - lo, i requires 0 <= i < hi - lo => Delivery(t, lo + i, items[lo + i]))
  }

  lemma DeliveriesSplit(t: Tid, items: seq<Item>, lo: nat, mid: nat, hi: nat)
    requires lo <= mid <= hi <= |items|
    ensures Deliveries(t, items, lo, mid) + Deliveries(t, items, mid, hi) == Deliveries(t, items, lo, hi)
  {
  }

  // t has delivered lo .. hi - 1; counters, elements and the other consumers' places stayed.
  ghost predicate Hands(s: State, t: Tid, s': State, lo: nat, hi: nat) {
    && s'.counters == s.counters && s'.items == s.items && s'.look.Keys == s.look.Keys
    && (forall u | u != t :: s'.Look(u) == s.Look(u))
    && lo <= hi <= |s.items| && s'.got == s.got + Deliveries(t, s.items, lo, hi)
  }

  // A place of the lookup is never at rest, and steps inside it leave the counters alone.
  lemma LookMoves(s: State, t: Tid, max: nat) returns (s': State)
    requires Reachable(s) && t in s.look && max > 0 && s.Look(t) != Done
    ensures Dequeues(s, t, max, 1, s') && Reachable(s') && s' == LookStep(s, t) && s'.Look(t) != Fault
  {
    hide Reachable, LookStep, Dequeues;
    s' := Moves(s, t, max);
    NoFault(s', t);
  }

  // From the claim to the first block's slot.
  lemma Finds(s: State, t: Tid, max: nat) returns (s': State)
    requires Reachable(s) && t in s.look && max > 0 && s.Look(t).AtHeader?
    ensures Dequeues(s, t, max, 3, s') && Reachable(s')
    ensures s' == s.(look := s.look[t := s'.Look(t)])
    ensures s'.Look(t).AtValue? && s'.Look(t).first == s.Look(t).first && s'.Look(t).end == s.Look(t).end
  {
    hide Reachable, Dequeues, BlockIndex.FindSlot;
    var s1 := LookMoves(s, t, max);
    var s2 := LookMoves(s1, t, max);
    DequeuesOn(s, t, max, 1, s1, 1, s2);
    s' := LookMoves(s2, t, max);
    DequeuesOn(s, t, max, 2, s2, 1, s');
  }

  // Reading the rest of a run of indices in one block.
  lemma {:induction false} Reads(s: State, t: Tid, max: nat) returns (n: nat, s': State)
    requires Reachable(s) && t in s.look && max > 0 && s.Look(t).Reading?
    requires s.Look(t).first <= s.Look(t).next < Stop(s.Look(t).first, s.Look(t).end)
    ensures var l := s.Look(t); var stop := Stop(l.first, l.end);
      && Dequeues(s, t, max, n, s') && Reachable(s') && Hands(s, t, s', l.next, stop)
      && s'.Look(t) == Reading(l.first, stop, l.end, l.header, l.slot, l.block)
    decreases Stop(s.Look(t).first, s.Look(t).end) - s.Look(t).next
  {
    hide Reachable, Dequeues, Stop;
    var l := s.Look(t);
    ReadingSeesTheItems(s, t, l.next);
    s' := LookMoves(s, t, max);
    n := 1;
    if l.next + 1 < Stop(l.first, l.end) {
      var j, e := Reads(s', t, max);
      DequeuesOn(s, t, max, 1, s', j, e);
      DeliveriesSplit(t, s.items, l.next, l.next + 1, Stop(l.first, l.end));
      n, s' := 1 + j, e;
    }
  }

  // The header a consumer holds has slots.
  lemma HeaderHasSlots(s: State, t: Tid)
    requires Reachable(s) && (s.Look(t).Reading? || (s.Look(t).Freeing? && s.Look(t).next < s.Look(t).end))
    ensures Capacity(s.ix, s.Look(t).header) > 0
  {
    hide Reachable, SharedInv, CountersInv, HistoryInv;
    var a := ReachableInv(s);
    assert LookInv(s, a, t);
  }

  // On to the next block, or finished.
  ghost predicate Goes(l: Look, next: nat, end: nat) {
    if next == end then l == Done else l.AtValue? && l.first == next && l.end == end
  }

  // Leaving a block, which is released if it was emptied.
  lemma Leaves(s: State, t: Tid, max: nat) returns (n: nat, s': State)
    requires Reachable(s) && t in s.look && max > 0 && s.Look(t).Reading?
    requires s.Look(t).next == Stop(s.Look(t).first, s.Look(t).end)
    ensures Dequeues(s, t, max, n, s') && Reachable(s') && Hands(s, t, s', s.Look(t).next, s.Look(t).next)
    ensures Goes(s'.Look(t), s.Look(t).next, s.Look(t).end)
  {
    hide Reachable, Dequeues, Stop;
    InRange(s, t);
    HeaderHasSlots(s, t);
    s' := LookMoves(s, t, max);
    n := 1;
    if s'.Look(t).Clearing? {
      var s2 := LookMoves(s', t, max);
      DequeuesOn(s, t, max, 1, s', 1, s2);
      if s2.Look(t).next < s2.Look(t).end { HeaderHasSlots(s2, t); }
      var s3 := LookMoves(s2, t, max);
      DequeuesOn(s, t, max, 2, s2, 1, s3);
      n, s' := 3, s3;
    }
  }

  lemma InRange(s: State, t: Tid)
    requires Reachable(s) && s.Look(t).Reading?
    ensures var l := s.Look(t); l.first <= l.next <= Stop(l.first, l.end) <= l.end <= |s.items| && l.first < l.end
  {
    hide Reachable, BlockIndex.Inv, BlocksInv, CellsInv, ProducerInv, TailBlockInv, HistoryInv, DC.Inv;
    var a := ReachableInv(s);
    assert LookInv(s, a, t);
    HeadBelowTail(s, a);
    assert s.Look(t).end - 1 in a.owner;
  }

  lemma StopsAhead(first: nat, end: nat)
    requires first < end
    ensures first < Stop(first, end) <= end
  {
  }

  // From a block's slot to the end of the dequeue, block by block.
  lemma {:induction false} Serves(s: State, t: Tid, max: nat) returns (n: nat, s': State)
    requires Reachable(s) && t in s.look && max > 0 && s.Look(t).AtValue? && s.Look(t).first < s.Look(t).end
    ensures Dequeues(s, t, max, n, s') && Reachable(s') && Hands(s, t, s', s.Look(t).first, s.Look(t).end) && s'.Look(t) == Done
    decreases s.Look(t).end - s.Look(t).first
  {
    hide Reachable, Dequeues, Stop;
    var first, end := s.Look(t).first, s.Look(t).end;
    StopsAhead(first, end);
    var s1 := LookMoves(s, t, max);
    var j, s2 := Reads(s1, t, max);
    DequeuesOn(s, t, max, 1, s1, j, s2);
    var k, s3 := Leaves(s2, t, max);
    DequeuesOn(s, t, max, 1 + j, s2, k, s3);
    n, s' := 1 + j + k, s3;
    var stop := Stop(first, end);
    if stop < end {
      var i;
      i, s' := Serves(s3, t, max);
      DequeuesOn(s, t, max, n, s3, i, s');
      n := n + i;
      DeliveriesSplit(t, s.items, first, stop, end);
    }
  }

  // ---------------------------------------------------------------------------------------
  // The answer

  // With all consumers at rest, a dequeue of at most `max` delivers exactly the elements of
  // the next min(max, tail - head) indices, in order, and advances the head past them. So it
  // comes back with nothing exactly when nothing is queued.
  lemma DequeueAnswers(s: State, t: Tid, max: nat) returns (n: nat, s': State)
    requires Reachable(s) && AllRest(s) && t in s.look && max > 0
    ensures s.counters.head <= s.counters.tail == |s.items|
    ensures Dequeues(s, t, max, n, s') && Reachable(s') && AllRest(s') && s'.items == s.items
    ensures var k := DC.Min(max, s.counters.tail - s.counters.head);
      && s'.counters.head == s.counters.head + k
      && s'.got == s.got + Deliveries(t, s.items, s.counters.head, s.counters.head + k)
    ensures s'.got == s.got <==> s.counters.head == s.counters.tail
  {
    hide Reachable, Dequeues, Deliveries, LookStep;
    RestBalance(s);
    assert AtRest(s, t);
    var s1 := Loads(s, t, max);
    s' := TriesToReserve(s1, t, max);
    DequeuesOn(s, t, max, 3, s1, 1, s');
    n := 4;
    Transitive(s, t, s1, s');
    NoneIsEmpty(t, s.items, s.counters.head);
    if s.counters.head < s.counters.tail {
      var j, e := ServesClaim(s', t, max);
      DequeuesOn(s, t, max, 4, s', j, e);
      Transitive(s, t, s', e);
      n, s' := 4 + j, e;
    }
    StillAtRest(s, t, s');
  }

  lemma Transitive(s: State, t: Tid, m: State, s': State)
    requires OthersStay(s, t, m) && OthersStay(m, t, s')
    ensures OthersStay(s, t, s')
  {
  }

  lemma StillAtRest(s: State, t: Tid, s': State)
    requires AllRest(s) && OthersStay(s, t, s') && AtRest(s', t)
    ensures AllRest(s')
  {
    forall u | u in s'.look ensures AtRest(s', u) {
      assert AtRest(s, u);
    }
  }

  lemma TriesToReserve(s: State, t: Tid, max: nat) returns (s': State)
    requires Reachable(s) && t in s.look && max > 0 && s.Look(t) == Done && s.counters.Pc(t).LoadOptimistic?
    ensures Dequeues(s, t, max, 1, s') && Reachable(s') && Counted(s, t, s')
    ensures s'.counters == s.counters.(pc := s'.counters.pc) && s'.Look(t) == Done
    ensures var LoadOptimistic(m, seen, over) := s.counters.Pc(t);
      var free := seen - (s.counters.optimistic - over);
      s'.counters.Pc(t) == if free <= 0 then DC.Idle else DC.Reserve(DC.Min(m, free), over)
  {
    hide Reachable, Dequeues, LookStep;
    s' := Moves(s, t, max);
  }

  lemma ServesClaim(s: State, t: Tid, max: nat) returns (n: nat, s': State)
    requires Reachable(s) && t in s.look && max > 0 && s.Look(t) == Done && s.counters.Pc(t).Reserve?
    requires 0 < s.counters.Pc(t).count <= s.counters.tail - (s.counters.optimistic - s.counters.Pc(t).over)
    requires s.counters.head + s.counters.Pc(t).count <= |s.items|
    ensures Dequeues(s, t, max, n, s') && Reachable(s') && OthersStay(s, t, s') && AtRest(s', t) && s'.items == s.items
    ensures var k := s.counters.Pc(t).count;
      && s'.counters.head == s.counters.head + k
      && s'.got == s.got + Deliveries(t, s.items, s.counters.head, s.counters.head + k)
  {
    hide Reachable, Dequeues, Deliveries, LookStep;
    var s1 := Claims(s, t, max);
    var s2 := Finds(s1, t, max);
    DequeuesOn(s, t, max, 3, s1, 3, s2);
    var j;
    j, s' := Serves(s2, t, max);
    DequeuesOn(s, t, max, 6, s2, j, s');
    n := 6 + j;
  }

  lemma NoneIsEmpty(t: Tid, items: seq<Item>, lo: nat)
    requires lo <= |items|
    ensures Deliveries(t, items, lo, lo) == []
    ensures forall hi | lo < hi <= |items| :: Deliveries(t, items, lo, hi) != []
  {
  }
}
