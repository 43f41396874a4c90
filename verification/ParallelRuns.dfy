/**
 ParallelFor as a client of the executor: it submits its chunks, waits for them one by one, and
 interleaves with the workers and all other clients.
 */
module ParallelRuns {
  import opened Sums
  import opened ParallelFor
  import opened ExecutorModel
  import opened ExecutorLinks
  import opened ExecutorRuns

  datatype Answer = Completed | Rejected | NotFound

  datatype Pc =
    | Submitting                              // about to register the next chunk
    | Enqueuing(id: TaskId)
    | Withdrawing(id: TaskId)
    | Looking(k: nat, a: Answer)              // Wait on id k looks its state up; a is the answer so far
    | Blocked(k: nat, a: Answer)              // Wait on id k waits for its state's done flag
    | Returned(a: Answer)

  datatype Client = Client(chunks: seq<Chunk>, ids: seq<TaskId>, pc: Pc)

  datatype World = World(s: State, c: Client)

  // A step of the client, or of anybody else.
  datatype Move = Mine(accepted: bool, full: bool) | Others(ev: Event)

  function ClientStep(w: World, accepted: bool, full: bool): World {
    var s, c := w.s, w.c;
    match c.pc
    case Submitting =>
      if |c.ids| < |c.chunks| then World(Step(s, Registers(0, Normal)), c.(pc := Enqueuing(s.nextId)))
      else World(s, c.(pc := Looking(0, Completed)))
    case Enqueuing(id) =>
      if accepted then World(Step(s, Enqueues(id)), c.(ids := c.ids + [id], pc := Submitting))
      else World(Step(s, IsRefused(id, full)), c.(pc := Withdrawing(id)))
    case Withdrawing(id) => World(Step(s, Withdraws(id)), c.(pc := Looking(0, Rejected)))
    case Looking(k, a) =>
      World(s, c.(pc := if k >= |c.ids| then Returned(a)
                        else if c.ids[k] in s.states then Blocked(k, a)
                        else Returned(if a == Completed then NotFound else a)))
    case Blocked(k, a) =>
      // The state object outlives its entry in states_; it is done once its task is marked.
      World(s, c.(pc := if k < |c.ids| && c.ids[k] in s.h.finished then Looking(k + 1, a) else Blocked(k, a)))
    case Returned(_) => w
  }

  // Others do not take part in the client's own submission.
  predicate Foreign(ev: Event, pc: Pc) {
    !(pc.Enqueuing? || pc.Withdrawing?) ||
    match ev
    case Enqueues(id) => id != pc.id
    case IsRefused(id, _) => id != pc.id
    case Withdraws(id) => id != pc.id
    case _ => true
  }

  predicate Enabled(w: World, m: Move) {
    m.Others? ==> Foreign(m.ev, w.c.pc)
  }

  function Next(w: World, m: Move): World {
    match m
    case Mine(accepted, full) => ClientStep(w, accepted, full)
    case Others(ev) => World(Step(w.s, ev), w.c)
  }

  ghost predicate Goes(w: World, moves: seq<Move>, w': World)
    decreases |moves|
  {
    if moves == [] then w' == w else Enabled(w, moves[0]) && Goes(Next(w, moves[0]), moves[1..], w')
  }

  // A call of ParallelFor with these chunks begins in a reachable state of the executor.
  ghost predicate Begins(w: World, chunks: seq<Chunk>) {
    ExecutorRuns.Reachable(w.s) && w.c == Client(chunks, [], Submitting)
  }

  // ---------------------------------------------------------------------------------------
  // What the client knows

  ghost predicate AllFinished(s: State, ids: seq<TaskId>, k: nat) {
    k <= |ids| && forall j | 0 <= j < k :: ids[j] in s.h.finished
  }

  ghost predicate ClientInv(w: World) {
    var s, c := w.s, w.c;
    && Distinct(c.ids) && |c.ids| <= |c.chunks|
    && (forall id | id in c.ids :: id in s.h.ticketOf)
    && match c.pc
       case Submitting => true
       case Enqueuing(id) => id in s.calls && s.calls[id].Entering? && |c.ids| < |c.chunks|
       case Withdrawing(id) => |c.ids| < |c.chunks|
       case Looking(k, a) => a != NotFound && AllFinished(s, c.ids, k) && (a == Rejected <==> |c.ids| < |c.chunks|)
       case Blocked(k, a) => a != NotFound && k < |c.ids| && AllFinished(s, c.ids, k) && (a == Rejected <==> |c.ids| < |c.chunks|)
       case Returned(a) => (a == Rejected <==> |c.ids| < |c.chunks|) && (a == Completed ==> AllFinished(s, c.ids, |c.ids|))
  }

  lemma Continues(s: State, ev: Event)
    requires ExecutorRuns.Reachable(s)
    ensures ExecutorRuns.Reachable(Step(s, ev))
  {
    hide Step, Init;
    var workers, events :| s == Run(Init(workers), events);
    RunNext(Init(workers), events, ev);
  }

  // Tickets are never taken back, nor finished tasks unfinished.
  lemma HistoryGrows(s: State, ev: Event)
    requires Inv(s)
    ensures var s' := Step(s, ev);
      && (forall id | id in s.h.ticketOf :: id in s'.h.ticketOf && s'.h.ticketOf[id] == s.h.ticketOf[id])
      && (forall id | id in s.h.finished :: id in s'.h.finished)
  {
    hide Step, Inv;
    match ev
    case Enqueues(id) => EnqueueHistory(s, id);
    case SubmitsPlain(priority) => PlainHistory(s, priority);
    case Marks(w) => MarkHistory(s, w);
    case _ => QuietHistory(s, ev);
  }

  lemma EnqueueHistory(s: State, id: TaskId)
    requires Inv(s)
    ensures var s' := Step(s, Enqueues(id));
      && (forall jd | jd in s.h.ticketOf :: jd in s'.h.ticketOf && s'.h.ticketOf[jd] == s.h.ticketOf[jd])
      && s'.h.finished == s.h.finished
  {
    hide SchedInv, KeyInv, IdInv, EntryInv, PendingInv, CancelInv, CountInv, OutcomeInv;
  }

  lemma PlainHistory(s: State, priority: Priority)
    ensures var s' := Step(s, SubmitsPlain(priority)); s'.h.ticketOf == s.h.ticketOf && s'.h.finished == s.h.finished
  {
  }

  lemma MarkHistory(s: State, w: Worker)
    ensures var s' := Step(s, Marks(w));
      s'.h.ticketOf == s.h.ticketOf && (s'.h.finished == s.h.finished || exists id :: s'.h.finished == s.h.finished + [id])
  {
    hide Kept, Dropped, Count;
  }

  lemma QuietHistory(s: State, ev: Event)
    requires !ev.Enqueues? && !ev.SubmitsPlain? && !ev.Marks?
    ensures Step(s, ev).h.ticketOf == s.h.ticketOf && Step(s, ev).h.finished == s.h.finished
  {
    hide Cancelable, Count;
  }

  predicate TouchesCalls(ev: Event) {
    ev.Registers? || ev.SubmitsPlain? || ev.Enqueues? || ev.IsRefused? || ev.Withdraws?
  }

  lemma CallStays(s: State, ev: Event, id: TaskId)
    requires Inv(s) && id in s.calls && s.calls[id].Entering? && Foreign(ev, Enqueuing(id))
    ensures var s' := Step(s, ev); id in s'.calls && s'.calls[id].Entering?
  {
    hide Step, Inv;
    if TouchesCalls(ev) { OtherCall(s, ev, id); } else { CallsQuiet(s, ev); }
  }

  lemma CallsQuiet(s: State, ev: Event)
    requires !TouchesCalls(ev)
    ensures Step(s, ev).calls == s.calls
  {
    hide Cancelable, Count, Kept, Dropped;
  }

  lemma OtherCall(s: State, ev: Event, id: TaskId)
    requires Inv(s) && TouchesCalls(ev) && id in s.calls && s.calls[id].Entering? && Foreign(ev, Enqueuing(id))
    ensures var s' := Step(s, ev); id in s'.calls && s'.calls[id].Entering?
  {
    hide SchedInv, KeyInv, EntryInv, CancelInv, CountInv, OutcomeInv, Kept, Distinct;
  }

  // Somebody else's step leaves the client's knowledge true.
  lemma OthersKeep(w: World, ev: Event)
    requires Inv(w.s) && ClientInv(w) && Foreign(ev, w.c.pc)
    ensures ClientInv(World(Step(w.s, ev), w.c))
  {
    hide Step, Inv, Distinct;
    HistoryGrows(w.s, ev);
    if w.c.pc.Enqueuing? { CallStays(w.s, ev, w.c.pc.id); }
  }

  lemma RegisterKeeps(w: World)
    requires Inv(w.s) && ClientInv(w) && w.c.pc == Submitting && |w.c.ids| < |w.c.chunks|
    ensures ClientInv(ClientStep(w, true, true))
  {
    hide Inv, Distinct;
    assert Step(w.s, Registers(0, Normal)) == Register(w.s, 0, Normal);
  }

  lemma EnqueueKeeps(w: World)
    requires Inv(w.s) && ClientInv(w) && w.c.pc.Enqueuing?
    ensures ClientInv(ClientStep(w, true, true))
  {
    hide SchedInv, KeyInv, IdInv, EntryInv, PendingInv, CancelInv, CountInv;
    CallsHaveIds(w.s);
    var id := w.c.pc.id;
    var call := w.s.calls[id];
    assert Step(w.s, Enqueues(id)) == Accept(w.s, id, call.key, call.priority);
    assert id !in w.c.ids;
  }

  lemma OtherStepsKeep(w: World, accepted: bool, full: bool)
    requires Inv(w.s) && ClientInv(w)
    requires w.c.pc.Submitting? ==> |w.c.ids| >= |w.c.chunks|
    requires w.c.pc.Enqueuing? ==> !accepted
    ensures ClientInv(ClientStep(w, accepted, full))
  {
    hide Inv, Distinct, Step;
    if w.c.pc.Enqueuing? { HistoryGrows(w.s, IsRefused(w.c.pc.id, full)); }
    if w.c.pc.Withdrawing? { HistoryGrows(w.s, Withdraws(w.c.pc.id)); }
  }

  lemma NextKeeps(w: World, m: Move)
    requires ExecutorRuns.Reachable(w.s) && ClientInv(w) && Enabled(w, m)
    ensures ExecutorRuns.Reachable(Next(w, m).s) && ClientInv(Next(w, m))
  {
    hide Step, ExecutorRuns.Reachable, Inv, ClientInv;
    ExecutorRuns.ReachableInv(w.s);
    match m {
      case Others(ev) =>
        Continues(w.s, ev);
        OthersKeep(w, ev);
      case Mine(accepted, full) =>
        MineReachable(w, accepted, full);
        if w.c.pc == Submitting && |w.c.ids| < |w.c.chunks| {
          RegisterKeeps(w);
        } else if w.c.pc.Enqueuing? && accepted {
          EnqueueKeeps(w);
        } else {
          OtherStepsKeep(w, accepted, full);
        }
    }
  }

  lemma MineReachable(w: World, accepted: bool, full: bool)
    requires ExecutorRuns.Reachable(w.s)
    ensures ExecutorRuns.Reachable(ClientStep(w, accepted, full).s)
  {
    hide Step, ExecutorRuns.Reachable;
    match w.c.pc
    case Submitting => Continues(w.s, Registers(0, Normal));
    case Enqueuing(id) =>
      Continues(w.s, Enqueues(id));
      Continues(w.s, IsRefused(id, full));
    case Withdrawing(id) => Continues(w.s, Withdraws(id));
    case _ =>
  }

  lemma {:induction false} GoesInv(w: World, moves: seq<Move>, w': World)
    requires ExecutorRuns.Reachable(w.s) && ClientInv(w) && Goes(w, moves, w')
    ensures ExecutorRuns.Reachable(w'.s) && ClientInv(w') && w'.c.chunks == w.c.chunks
    decreases |moves|
  {
    hide ExecutorRuns.Reachable, ClientInv, Step;
    if moves != [] {
      NextKeeps(w, moves[0]);
      GoesInv(Next(w, moves[0]), moves[1..], w');
    }
  }

  // ---------------------------------------------------------------------------------------
  // The indices that were run

  // What the started bodies pass on, where work says which tickets are chunks.
  function Ran(log: seq<nat>, work: map<nat, Chunk>): seq<nat> {
    if log == [] then []
    else Ran(log[..|log| - 1], work) +
         (if log[|log| - 1] in work then Indices(work[log[|log| - 1]].first, work[log[|log| - 1]].last) else [])
  }

  function Work(tickets: seq<nat>, chunks: seq<Chunk>): map<nat, Chunk>
    requires |tickets| == |chunks|
  {
    if tickets == [] then map[]
    else Work(tickets[..|tickets| - 1], chunks[..|chunks| - 1])[tickets[|tickets| - 1] := chunks[|chunks| - 1]]
  }

  lemma {:induction false} WorkKeys(tickets: seq<nat>, chunks: seq<Chunk>)
    requires |tickets| == |chunks|
    ensures forall n :: n in Work(tickets, chunks) <==> n in tickets
    decreases |tickets|
  {
    if tickets != [] {
      var front := tickets[..|tickets| - 1];
      WorkKeys(front, chunks[..|chunks| - 1]);
      assert tickets == front + [tickets[|tickets| - 1]];
    }
  }

  lemma {:induction false} RanNothing(log: seq<nat>)
    ensures Ran(log, map[]) == []
  {
    if log != [] { RanNothing(log[..|log| - 1]); }
  }

  lemma {:induction false} RanWithout(log: seq<nat>, work: map<nat, Chunk>, t: nat)
    requires t !in log
    ensures Ran(log, work) == Ran(log, work - {t})
  {
    if log != [] {
      assert log[|log| - 1] != t;
      RanWithout(log[..|log| - 1], work, t);
    }
  }

  // A ticket in the log contributes its chunk once.
  lemma {:induction false} RanOne(log: seq<nat>, work: map<nat, Chunk>, t: nat)
    requires Distinct(log) && t in log && t in work
    ensures multiset(Ran(log, work)) == multiset(Ran(log, work - {t})) + multiset(Indices(work[t].first, work[t].last))
  {
    hide Indices;
    var front, n := log[..|log| - 1], log[|log| - 1];
    assert log == front + [n];
    if n == t {
      assert t !in front;
      RanWithout(front, work, t);
    } else {
      RanOne(front, work, t);
    }
  }

  lemma {:induction false} RanAll(log: seq<nat>, tickets: seq<nat>, chunks: seq<Chunk>)
    requires |tickets| == |chunks| && Distinct(log) && Distinct(tickets) && forall n | n in tickets :: n in log
    ensures multiset(Ran(log, Work(tickets, chunks))) == multiset(AllIndices(chunks))
    decreases |tickets|
  {
    hide Indices, Ran;
    if tickets == [] {
      RanNothing(log);
    } else {
      var front, t, rest := tickets[..|tickets| - 1], tickets[|tickets| - 1], chunks[..|chunks| - 1];
      LastTicket(tickets, chunks);
      RanOne(log, Work(tickets, chunks), t);
      RanAll(log, front, rest);
    }
  }

  lemma LastTicket(tickets: seq<nat>, chunks: seq<Chunk>)
    requires |tickets| == |chunks| > 0 && Distinct(tickets)
    ensures var front, t, rest := tickets[..|tickets| - 1], tickets[|tickets| - 1], chunks[..|chunks| - 1];
      && Distinct(front) && (forall n | n in front :: n in tickets)
      && t in tickets && t in Work(tickets, chunks) && Work(tickets, chunks)[t] == chunks[|chunks| - 1]
      && Work(tickets, chunks) - {t} == Work(front, rest)
  {
    var front, t := tickets[..|tickets| - 1], tickets[|tickets| - 1];
    WorkKeys(front, chunks[..|chunks| - 1]);
    assert t !in front;
  }

  function Tickets(h: History, ids: seq<TaskId>): (r: seq<nat>)
    ensures |r| == |ids|
  {
    seq(|ids|, k requires 0 <= k < |ids| => if ids[k] in h.ticketOf then h.ticketOf[ids[k]] else 0)
  }

  // Bodies of finished tasks that nobody canceled are in the log.
  lemma FinishedRan(s: State, id: TaskId)
    requires ExecutorRuns.Reachable(s) && id in s.h.finished && id !in s.h.canceledOk
    ensures id in s.h.ticketOf && s.h.ticketOf[id] in s.h.log && Distinct(s.h.log)
  {
    hide ExecutorRuns.Reachable, SchedInv, KeyInv, IdInv, LinkInv, CountInv, Distinct, PhaseOk, Untested;
    ExecutorRuns.ReachableInv(s);
    assert Settled(s.h, id);
  }

  lemma TicketsDistinct(s: State, ids: seq<TaskId>)
    requires ExecutorRuns.Reachable(s) && Distinct(ids) && forall id | id in ids :: id in s.h.ticketOf
    ensures Distinct(Tickets(s.h, ids))
  {
    hide ExecutorRuns.Reachable, SchedInv, KeyInv, IdInv, EntryInv, PendingInv, CountInv, CancelInv;
    ExecutorRuns.ReachableInv(s);
    var r := Tickets(s.h, ids);
    forall i, j | 0 <= i < j < |r| ensures r[i] != r[j] { assert ids[i] in ids && ids[j] in ids; }
  }

  // None of the chunks was canceled and none threw.
  ghost predicate Undisturbed(s: State, ids: seq<TaskId>) {
    forall id | id in ids :: id !in s.h.canceledOk && (id in s.h.ticketOf ==> s.h.ticketOf[id] !in s.h.threw)
  }

  // How often the chunks' bodies were run on index i. A body that started, finished and did not
  // throw passed on all its indices.
  ghost function TimesRun(s: State, ids: seq<TaskId>, chunks: seq<Chunk>, i: nat): nat
    requires |ids| == |chunks|
  {
    multiset(Ran(s.h.log, Work(Tickets(s.h, ids), chunks)))[i]
  }

  lemma FinishedChunksRan(s: State, ids: seq<TaskId>, chunks: seq<Chunk>, begin: nat, end: nat, i: nat)
    requires ExecutorRuns.Reachable(s) && |ids| == |chunks| && Distinct(ids) && Undisturbed(s, ids)
    requires AllFinished(s, ids, |ids|) && Partition(chunks, begin, end)
    ensures TimesRun(s, ids, chunks, i) == if begin <= i < end then 1 else 0
  {
    hide ExecutorRuns.Reachable, Ran, Work, AllIndices, Indices, Distinct;
    var r := Tickets(s.h, ids);
    forall k | 0 <= k < |ids| ensures ids[k] in s.h.ticketOf && r[k] in s.h.log { FinishedRan(s, ids[k]); }
    TicketsDistinct(s, ids);
    LogDistinct(s);
    RanAll(s.h.log, r, chunks);
    IndexCount(begin, end, i);
  }

  lemma LogDistinct(s: State)
    requires ExecutorRuns.Reachable(s)
    ensures Distinct(s.h.log)
  {
    hide ExecutorRuns.Reachable, SchedInv, KeyInv, IdInv, LinkInv, CountInv, Distinct, PhaseOk, Untested, FlagInv;
    ExecutorRuns.ReachableInv(s);
  }

  lemma BeginKnows(w: World, chunks: seq<Chunk>)
    requires Begins(w, chunks)
    ensures ClientInv(w)
  {
    hide ExecutorRuns.Reachable;
  }

  // ParallelFor returned Ok, nobody canceled a chunk and no body threw: every index of the range
  // was run exactly once, and no other.
  lemma OkMeansEachIndexOnce(w: World, moves: seq<Move>, w': World, begin: nat, end: nat, grain: nat, chunks: seq<Chunk>, i: nat)
    requires begin < end < ParallelFor.SIZE_T && 0 < grain < ParallelFor.SIZE_T && NoWrap(begin, end, grain)
    requires LoopEnds(begin, end, grain, chunks) && Begins(w, chunks) && Goes(w, moves, w')
    requires w'.c.pc == Returned(Completed) && Undisturbed(w'.s, w'.c.ids)
    ensures |w'.c.ids| == |chunks|
    ensures TimesRun(w'.s, w'.c.ids, chunks, i) == if begin <= i < end then 1 else 0
  {
    hide ExecutorRuns.Reachable, Ran, Work, AllIndices, Indices, Distinct, LoopEnds, NoWrap, Goes;
    BeginKnows(w, chunks);
    GoesInv(w, moves, w');
    EndedPartitions(begin, end, grain, chunks);
    FinishedChunksRan(w'.s, w'.c.ids, chunks, begin, end, i);
  }

  // ParallelFor answers with a refusal exactly when one of its submissions was refused, and
  // with Ok only when all its chunks have finished.
  lemma RejectedMeansRefused(w: World, moves: seq<Move>, w': World, chunks: seq<Chunk>)
    requires Begins(w, chunks) && Goes(w, moves, w') && w'.c.pc.Returned?
    ensures |w'.c.ids| <= |chunks| && (w'.c.pc.a == Rejected <==> |w'.c.ids| < |chunks|)
    ensures w'.c.pc.a == Completed ==> AllFinished(w'.s, w'.c.ids, |w'.c.ids|)
  {
    hide ExecutorRuns.Reachable, Distinct, Goes, Step;
    BeginKnows(w, chunks);
    GoesInv(w, moves, w');
  }

  // The loop's chunks are determined by its arguments.
  lemma {:induction false} SameLoop(first: nat, end: nat, grain: nat, chunks: seq<Chunk>, others: seq<Chunk>)
    requires LoopEnds(first, end, grain, chunks) && LoopEnds(first, end, grain, others)
    ensures chunks == others
    decreases |chunks|
  {
    if chunks != [] && others != [] {
      SameLoop(NextStart(first, grain), end, grain, chunks[1..], others[1..]);
      assert chunks == [chunks[0]] + chunks[1..] && others == [others[0]] + others[1..];
    }
  }

  lemma EndedPartitions(begin: nat, end: nat, grain: nat, chunks: seq<Chunk>)
    requires begin < end < ParallelFor.SIZE_T && 0 < grain < ParallelFor.SIZE_T && LoopEnds(begin, end, grain, chunks)
    requires NoWrap(begin, end, grain)
    ensures Partition(chunks, begin, end)
  {
    hide LoopEnds, Partition, NoWrap;
    PartitionIffNoWrap(begin, end, grain);
    var others :| LoopEnds(begin, end, grain, others) && Partition(others, begin, end);
    SameLoop(begin, end, grain, chunks, others);
  }

  // WaitBatch answers NotFound exactly when its next id is too old.
  lemma NotFoundMeansOld(w: World, moves: seq<Move>, w': World, chunks: seq<Chunk>)
    requires Begins(w, chunks) && Goes(w, moves, w')
    requires w'.c.pc.Looking? && w'.c.pc.a == Completed && w'.c.pc.k < |w'.c.ids|
    ensures ClientStep(w', true, true).c.pc == Returned(NotFound) <==>
      exists j :: 0 <= j < |w'.s.h.finished| && w'.s.h.finished[j] == w'.c.ids[w'.c.pc.k] && |w'.s.h.finished| - 1 - j >= RETAINED
  {
    hide ExecutorRuns.Reachable, Distinct, Goes, Step;
    BeginKnows(w, chunks);
    GoesInv(w, moves, w');
    assert w'.c.ids[w'.c.pc.k] in w'.c.ids;
    WaitAnswersNotFound(w'.s, w'.c.ids[w'.c.pc.k]);
  }

  // ---------------------------------------------------------------------------------------
  // More chunks than the executor remembers

  ghost predicate GoesTo(w: World, w': World) {
    exists moves :: Goes(w, moves, w')
  }

  lemma {:induction false} GoesLonger(w: World, moves: seq<Move>, w': World, m: Move)
    requires Goes(w, moves, w') && Enabled(w', m)
    ensures Goes(w, moves + [m], Next(w', m))
    decreases |moves|
  {
    hide Next, Enabled;
    if moves == [] {
      assert moves + [m] == [m];
      assert Goes(Next(w, m), [m][1..], Next(w, m));
    } else {
      GoesLonger(Next(w, moves[0]), moves[1..], w', m);
      assert (moves + [m])[1..] == moves[1..] + [m];
    }
  }

  lemma Moves(w0: World, w: World, m: Move) returns (w': World)
    requires GoesTo(w0, w) && Enabled(w, m)
    ensures w' == Next(w, m) && GoesTo(w0, w')
  {
    hide Next, Enabled, Goes;
    var moves :| Goes(w0, moves, w);
    GoesLonger(w0, moves, w, m);
    w' := Next(w, m);
  }

  function Numbers(n: nat): seq<TaskId> {
    seq(n, k => k + 1)
  }

  // An executor with one worker, and nothing else going on.
  function Alone(chunks: seq<Chunk>): World {
    World(Init({0}), Client(chunks, [], Submitting))
  }

  // n chunks were submitted and have finished.
  ghost predicate Worked(w: World, n: nat) {
    && w.s.tasks == [] && w.s.workers == map[0 := Idle] && 0 !in w.s.holders
    && w.s.nextId == n + 1 && w.s.lastTicket == n
    && w.s.h.finished == Numbers(n) && w.s.h.canceledOk == {} && w.s.h.threw == {}
    && w.c.ids == Numbers(n) && w.c.pc == Submitting
  }

  // A submitted task is at the only worker.
  ghost predicate Working(w: World, n: nat, p: Phase) {
    && n > 0 && w.s.tasks == [] && w.s.workers == map[0 := p] && 0 !in w.s.holders
    && w.s.nextId == n + 1 && w.s.lastTicket == n
    && n in w.s.states && !w.s.states[n].canceled
    && w.s.h.finished == Numbers(n - 1) && w.s.h.canceledOk == {} && w.s.h.threw == {}
    && w.c.ids == Numbers(n) && w.c.pc == Submitting
  }

  lemma SubmitOne(w0: World, w: World, n: nat) returns (w': World)
    requires GoesTo(w0, w) && Worked(w, n) && n < |w.c.chunks|
    ensures GoesTo(w0, w') && w'.c.chunks == w.c.chunks && Working(w', n + 1, Taken(Entry(n + 1, 0, Normal, n + 1)))
  {
    hide GoesTo;
    w' := Moves(w0, w, Mine(true, false));
    assert w'.s == Register(w.s, 0, Normal) && w'.c.pc == Enqueuing(n + 1);
    var s1 := w'.s;
    w' := Moves(w0, w', Mine(true, false));
    assert w'.s == Accept(s1, n + 1, 0, Normal);
    assert w'.s.tasks == [Entry(n + 1, 0, Normal, n + 1)];
    assert Numbers(n) + [n + 1] == Numbers(n + 1);
    w' := Moves(w0, w', Others(Takes(0, 0)));
    assert w'.s.tasks == [];
  }

  lemma RunOne(w0: World, w: World, n: nat, e: Entry) returns (w': World)
    requires GoesTo(w0, w) && n > 0 && e == Entry(n, 0, Normal, n) && Working(w, n, Taken(e))
    ensures GoesTo(w0, w') && w'.c.chunks == w.c.chunks && Working(w', n, Marking(e, true, false, true))
  {
    hide GoesTo, Numbers;
    w' := Moves(w0, w, Others(Acquires(0)));
    assert w'.s.workers == map[0 := Checking(e)];
    w' := Moves(w0, w', Others(Checks(0)));
    assert w'.s.workers == map[0 := Running(e)];
    w' := Moves(w0, w', Others(BodyEnds(0, false)));
    assert w'.s.workers == map[0 := Marking(e, true, false, true)];
  }

  lemma FinishOne(w0: World, w: World, n: nat, e: Entry) returns (w': World)
    requires GoesTo(w0, w) && n > 0 && e == Entry(n, 0, Normal, n) && Working(w, n, Marking(e, true, false, true))
    ensures GoesTo(w0, w') && w'.c.chunks == w.c.chunks && Worked(w', n)
  {
    hide GoesTo, Kept, Dropped;
    w' := Moves(w0, w, Others(Marks(0)));
    assert Numbers(n - 1) + [n] == Numbers(n);
    assert w'.s.workers == map[0 := Releasing(e, true)];
    w' := Moves(w0, w', Others(Releases(0)));
    assert w'.s.workers == map[0 := Leaving(e)];
    w' := Moves(w0, w', Others(Leaves(0)));
    assert w'.s.workers == map[0 := Idle];
  }

  lemma {:induction false} WorkOff(chunks: seq<Chunk>, n: nat) returns (w: World)
    requires n <= |chunks|
    ensures GoesTo(Alone(chunks), w) && w.c.chunks == chunks && Worked(w, n)
  {
    hide GoesTo, Working;
    if n == 0 {
      w := Alone(chunks);
      Stands(w);
      assert Numbers(0) == [];
    } else {
      var e := Entry(n, 0, Normal, n);
      w := WorkOff(chunks, n - 1);
      w := SubmitOne(Alone(chunks), w, n - 1);
      w := RunOne(Alone(chunks), w, n, e);
      w := FinishOne(Alone(chunks), w, n, e);
    }
  }

  lemma Stands(w: World)
    ensures GoesTo(w, w)
  {
    assert Goes(w, [], w);
  }

  // With more chunks than the executor remembers, ParallelFor may answer NotFound although all
  // its chunks have finished, none of them canceled and none throwing.
  lemma TooManyChunks(chunks: seq<Chunk>) returns (moves: seq<Move>, w: World)
    requires |chunks| > RETAINED
    ensures Begins(Alone(chunks), chunks) && Goes(Alone(chunks), moves, w)
    ensures w.c.pc == Returned(NotFound) && |w.c.ids| == |chunks|
    ensures AllFinished(w.s, w.c.ids, |w.c.ids|) && Undisturbed(w.s, w.c.ids)
  {
    hide Goes, Step, ExecutorRuns.Reachable;
    var v := WorkOff(chunks, |chunks|);
    AloneBegins(chunks);
    var before :| Goes(Alone(chunks), before, v);
    BeginKnows(Alone(chunks), chunks);
    GoesInv(Alone(chunks), before, v);
    FirstForgotten(v, |chunks|);
    var u := Moves(Alone(chunks), v, Mine(true, true));
    assert u.c.pc == Looking(0, Completed);
    w := Moves(Alone(chunks), u, Mine(true, true));
    moves :| Goes(Alone(chunks), moves, w);
  }

  lemma AloneBegins(chunks: seq<Chunk>)
    ensures Begins(Alone(chunks), chunks)
  {
    assert Init({0}) == Run(Init({0}), []);
  }

  lemma FirstForgotten(w: World, n: nat)
    requires ExecutorRuns.Reachable(w.s) && ClientInv(w) && Worked(w, n) && n > RETAINED
    ensures w.c.ids[0] !in w.s.states
  {
    hide ExecutorRuns.Reachable, Distinct;
    assert w.c.ids[0] in w.c.ids && w.s.h.finished[0] == w.c.ids[0];
    WaitAnswersNotFound(w.s, w.c.ids[0]);
  }

  // All chunks have finished and the executor remembers them.
  ghost predicate Waitable(w: World) {
    && AllFinished(w.s, w.c.ids, |w.c.ids|)
    && (forall id | id in w.c.ids :: id in w.s.states)
  }

  // The waits are answered one after the other.
  lemma {:induction false} WaitOn(w0: World, w: World, k: nat) returns (w': World)
    requires GoesTo(w0, w) && Waitable(w) && k <= |w.c.ids| && w.c.pc == Looking(0, Completed)
    ensures GoesTo(w0, w') && w' == World(w.s, w.c.(pc := Looking(k, Completed)))
  {
    hide GoesTo, Step;
    if k == 0 {
      w' := w;
    } else {
      w' := WaitOn(w0, w, k - 1);
      assert w.c.ids[k - 1] in w.c.ids;
      w' := Moves(w0, w', Mine(true, true));
      assert w'.c.pc == Blocked(k - 1, Completed);
      w' := Moves(w0, w', Mine(true, true));
    }
  }

  lemma AllRemembered(w: World, n: nat)
    requires ExecutorRuns.Reachable(w.s) && ClientInv(w) && Worked(w, n) && n <= RETAINED
    ensures Waitable(w)
  {
    hide ExecutorRuns.Reachable, Distinct;
    forall id | id in w.c.ids ensures id in w.s.states { WaitAnswersNotFound(w.s, id); }
  }

  // With no more chunks than the executor remembers, undisturbed by others, ParallelFor
  // returns Ok.
  lemma FewChunksComplete(chunks: seq<Chunk>) returns (moves: seq<Move>, w: World)
    requires |chunks| <= RETAINED
    ensures Begins(Alone(chunks), chunks) && Goes(Alone(chunks), moves, w)
    ensures w.c.pc == Returned(Completed) && |w.c.ids| == |chunks| && Undisturbed(w.s, w.c.ids)
  {
    hide Goes, Step, ExecutorRuns.Reachable;
    var v := WorkOff(chunks, |chunks|);
    AloneBegins(chunks);
    var before :| Goes(Alone(chunks), before, v);
    BeginKnows(Alone(chunks), chunks);
    GoesInv(Alone(chunks), before, v);
    AllRemembered(v, |chunks|);
    var u := Moves(Alone(chunks), v, Mine(true, true));
    u := WaitOn(Alone(chunks), u, |chunks|);
    w := Moves(Alone(chunks), u, Mine(true, true));
    moves :| Goes(Alone(chunks), moves, w);
  }
}
