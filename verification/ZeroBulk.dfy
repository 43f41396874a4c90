/**
 A bulk dequeue that asks for no element at all.

 It claims nothing, yet it looks up the block of the head index, which another consumer may
 have emptied and released meanwhile.
 */
module ZeroBulk {
  import opened Modular
  import opened ImplicitQueue
  import opened QueueRuns
  import BlockIndex
  import DC = DequeueCounters

  ghost predicate Reaches(s: State, s': State) {
    exists events :: Run(s, events, s')
  }

  lemma Move(s0: State, s: State, e: Event) returns (s': State)
    requires Reaches(s0, s) && Enabled(s, e)
    ensures s' == Step(s, e) && Reaches(s0, s')
  {
    hide Step, Enabled, Run;
    var events :| Run(s0, events, s);
    RunLonger(s0, events, s, e);
    s' := Step(s, e);
  }

  // ---------------------------------------------------------------------------------------
  // One full block

  // The index after one insertion: slot 0 leads to block 0, slot 1 was never used.
  ghost predicate OneBlock(x: BlockIndex.Index) {
    && |x.headers| == 1 && |x.headers[0].index| == 32 && x.headers[0].tail == 0
    && x.headers[0].index[0] == 0 && x.headers[0].index[1] == 1
    && x.Key(0) == 0 && x.Value(1) == BlockIndex.Garbage
  }

  ghost predicate Filled(s: State, k: nat) {
    && s.counters.tail == k && s.counters.head == 0 && s.counters.optimistic == 0 && s.counters.overcommit == 0
    && s.counters.Pc(0) == DC.Idle && s.counters.Pc(1) == DC.Idle
    && s.look.Keys == {0, 1} && s.Look(0) == Done && s.Look(1) == Done
    && OneBlock(s.ix) && s.ix.Value(0) == BlockIndex.Blk(0)
    && s.Dequeued(0) == 0 && s.producer == Resting
  }

  function Start(): State {
    State(DC.State(0, 0, 0, 0, map[0 := DC.Idle, 1 := DC.Idle], []), BlockIndex.First(), map[], map[], {0}, 0, Resting,
          map[0 := Done, 1 := Done], [], [])
  }

  function Go(): Event {
    Produce(Choice(7, false, BlockIndex.Blk(0)))
  }

  lemma FirstElement() returns (s: State)
    ensures Reaches(Start(), s) && Filled(s, 1)
  {
    hide Reaches;
    s := Start();
    StartReached();
    s := Move(Start(), s, Go());
    s := Move(Start(), s, Go());
    assert s.producer == PutKey(7, 0, 0);
    s := Move(Start(), s, Go());
    s := Move(Start(), s, Go());
    assert s.producer == Requisition(7, 0);
    s := Move(Start(), s, Go());
    s := Move(Start(), s, Go());
    s := Move(Start(), s, Go());
    assert s.producer == Write(7);
    s := Move(Start(), s, Go());
    s := Move(Start(), s, Go());
  }

  lemma StartReached()
    ensures Reaches(Start(), Start())
  {
    assert Run(Start(), [], Start());
  }

  lemma {:induction false} FillBlock(k: nat) returns (s: State)
    requires 1 <= k <= 32
    ensures Reaches(Start(), s) && Filled(s, k)
  {
    hide Reaches;
    if k == 1 {
      s := FirstElement();
    } else {
      s := FillBlock(k - 1);
      s := Move(Start(), s, Go());
      assert s.producer == Write(7);
      s := Move(Start(), s, Go());
      s := Move(Start(), s, Go());
    }
  }

  // ---------------------------------------------------------------------------------------
  // The consumers

  // Consumer 0 asks for nothing and stops short of headIndex.
  ghost predicate Waiting(s: State) {
    && s.counters.Pc(0) == DC.Take(0) && s.Look(0) == Done && s.look.Keys == {0, 1} && OneBlock(s.ix)
  }

  lemma AskForNothing() returns (s: State)
    ensures Reaches(Start(), s) && Waiting(s)
    ensures s.counters.tail == 32 && s.counters.head == 0 && s.counters.optimistic == 0 && s.counters.overcommit == 0
    ensures s.counters.Pc(1) == DC.Idle && s.Look(1) == Done && s.ix.Value(0) == BlockIndex.Blk(0) && s.Dequeued(0) == 0
  {
    hide Reaches;
    var nothing := Consume(0, 0);
    s := FillBlock(32);
    s := Move(Start(), s, nothing);
    s := Move(Start(), s, nothing);
    s := Move(Start(), s, nothing);
    s := Move(Start(), s, nothing);
    assert s.counters.Pc(0) == DC.Reserve(0, 0);
    s := Move(Start(), s, nothing);
    s := Move(Start(), s, nothing);
  }

  // Consumer 1 claims the whole block.
  lemma ClaimAll() returns (s: State)
    ensures Reaches(Start(), s) && Waiting(s)
    ensures s.counters.head == 32 && s.Look(1) == AtHeader(0, 32) && s.ix.Value(0) == BlockIndex.Blk(0) && s.Dequeued(0) == 0
  {
    hide Reaches, OneBlock;
    var all := Consume(1, 32);
    s := AskForNothing();
    s := Move(Start(), s, all);
    s := Move(Start(), s, all);
    s := Move(Start(), s, all);
    s := Move(Start(), s, all);
    assert s.counters.Pc(1) == DC.Reserve(32, 0);
    s := Move(Start(), s, all);
    s := Move(Start(), s, all);
    assert s.counters.Pc(1) == DC.Take(32);
    s := Move(Start(), s, all);
  }

  lemma FindBlock() returns (s: State)
    ensures Reaches(Start(), s) && Waiting(s)
    ensures s.counters.head == 32 && s.Look(1) == Reading(0, 0, 32, 0, 0, 0) && s.Dequeued(0) == 0
  {
    hide Reaches;
    var all := Consume(1, 32);
    s := ClaimAll();
    s := Move(Start(), s, all);
    s := Move(Start(), s, all);
    s := Move(Start(), s, all);
    assert s.Look(1) == AtValue(0, 32, 0, 0);
    s := Move(Start(), s, all);
  }

  lemma {:induction false} ReadSome(k: nat) returns (s: State)
    requires k <= 32
    ensures Reaches(Start(), s) && Waiting(s)
    ensures s.counters.head == 32 && s.Look(1) == Reading(0, k, 32, 0, 0, 0) && s.Dequeued(0) == 0
  {
    hide Reaches, OneBlock;
    if k == 0 {
      s := FindBlock();
    } else {
      s := ReadSome(k - 1);
      s := Move(Start(), s, Consume(1, 32));
    }
  }

  // Consumer 0 goes on: the head index is now 32, whose slot was never used.
  lemma LookNowhere() returns (s: State)
    ensures Reaches(Start(), s) && s.Look(0) == Fault
  {
    hide Reaches;
    var nothing := Consume(0, 0);
    s := ReadSome(32);
    s := Move(Start(), s, nothing);
    assert s.Look(0) == AtHeader(32, 32);
    s := Move(Start(), s, nothing);
    s := Move(Start(), s, nothing);
    s := Move(Start(), s, nothing);
    assert s.Look(0) == AtValue(32, 32, 0, 1);
    s := Move(Start(), s, nothing);
  }

  // Asking for at least one element is what keeps a consumer from a null block: without that,
  // some run reaches one.
  lemma ZeroBulkFaults()
    ensures exists s0, events, s :: Init(s0) && Run(s0, events, s) && s.Look(0) == Fault && !AllAsk(events)
    ensures forall s, t :: Reachable(s) ==> s.Look(t) != Fault
  {
    hide Run, LookStep, Inv;
    forall s, t | Reachable(s) ensures s.Look(t) != Fault { NoFault(s, t); }
    var s := LookNowhere();
    var events :| Run(Start(), events, s);
  }
}
