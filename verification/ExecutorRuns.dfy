/**
 Whole runs of the executor.
 */
module ExecutorRuns {
  import opened Sums
  import opened ExecutorModel
  import opened ExecutorSteps
  import opened ExecutorLinks
  import opened ExecutorCounts

  // One critical section, or the end of a task body.
  datatype Event =
    | Registers(key: nat, priority: Priority)
    | SubmitsPlain(priority: Priority)
    | Enqueues(id: TaskId)
    | IsRefused(id: TaskId, full: bool)
    | Withdraws(id: TaskId)
    | Takes(w: Worker, i: nat)
    | Acquires(w: Worker)
    | Checks(w: Worker)
    | BodyEnds(w: Worker, throws: bool)
    | Marks(w: Worker)
    | Releases(w: Worker)
    | Leaves(w: Worker)
    | Cancels(id: TaskId)

  // A step that is not enabled changes nothing.
  function Step(s: State, ev: Event): State {
    match ev
    case Registers(key, priority) => Register(s, key, priority)
    case SubmitsPlain(priority) => Accept(s, 0, 0, priority)
    case Enqueues(id) =>
      if id in s.calls && s.calls[id].Entering? then Accept(s, id, s.calls[id].key, s.calls[id].priority) else s
    case IsRefused(id, full) => Refuse(s, id, full)
    case Withdraws(id) => if id in s.calls && s.calls[id].Refused? then Withdraw(s, id) else s
    case Takes(w, i) => if w in s.workers && s.workers[w] == Idle && i < |s.tasks| then Take(s, w, i) else s
    case Acquires(w) =>
      if w in s.workers && s.workers[w].Taken? && s.workers[w].e.key !in s.holders then Acquire(s, w, s.workers[w].e) else s
    case Checks(w) =>
      if w in s.workers && s.workers[w].Checking? && s.workers[w].e.id in s.states then Check(s, w, s.workers[w].e) else s
    case BodyEnds(w, throws) => if w in s.workers && s.workers[w].Running? then EndBody(s, w, s.workers[w].e, throws) else s
    case Marks(w) =>
      if w in s.workers && s.workers[w].Marking? && s.workers[w].e.id in s.states then MarkTaskDone(s, w, s.workers[w]) else s
    case Releases(w) => if w in s.workers && s.workers[w].Releasing? then Release(s, w, s.workers[w]) else s
    case Leaves(w) => if w in s.workers && s.workers[w].Leaving? then Leave(s, w) else s
    case Cancels(id) => if Cancelable(s, id) then Cancel(s, id) else s
  }

  // ---------------------------------------------------------------------------------------
  // Every step keeps the invariant

  lemma InitInv(workers: set<Worker>)
    ensures Inv(Init(workers))
  {
    hide BusyWorkers, Elements, LinkInv, CancelInv, CountInv;
    InitEmpty(workers);
    InitLinks(workers);
    InitCounts(workers);
  }

  lemma InitLinks(workers: set<Worker>)
    ensures Link(Init(workers)) && Canceling(Init(workers))
  {
  }

  lemma InitCounts(workers: set<Worker>)
    ensures Counting(Init(workers))
  {
  }

  lemma InitEmpty(workers: set<Worker>)
    ensures BusyWorkers(Init(workers).workers) == {} && Elements<TaskId>([]) == {}
  {
  }

  lemma RegisterInv(s: State, key: nat, priority: Priority)
    requires Inv(s)
    ensures Inv(Register(s, key, priority))
  {
    hide SchedInv, KeyInv, IdInv, LinkInv, CancelInv, CountInv;
    IdRegister(s.states, s.pendingIds, s.doneIds, s.nextId, s.h.finished);
    LinkRegister(s, key, priority);
    CancelRegister(s, key, priority);
  }

  lemma AcceptInv(s: State, id: TaskId, key: nat, priority: Priority)
    requires Inv(s) && (id == 0 || id in s.calls) && (id == 0 ==> key == 0)
    ensures Inv(Accept(s, id, key, priority))
  {
    hide SchedInv, KeyInv, IdInv, LinkInv, CancelInv, CountInv;
    SchedAccept(s.tasks, s.workers, s.active, s.pending, s.lastTicket, Entry(id, key, priority, s.lastTicket + 1));
    LinkAccept(s, id, key, priority);
    CancelAccept(s, id, key, priority);
    CountAccept(s, id, key, priority);
  }

  lemma RefuseInv(s: State, id: TaskId, full: bool)
    requires Inv(s)
    ensures Inv(Refuse(s, id, full))
  {
    hide SchedInv, KeyInv, IdInv, EntryInv, PendingInv, CancelInv, Outstanding, CanceledTicket;
  }

  lemma WithdrawInv(s: State, id: TaskId)
    requires Inv(s) && id in s.calls
    ensures Inv(Withdraw(s, id))
  {
    hide SchedInv, KeyInv, IdInv, EntryInv, PendingInv, CancelInv, CountInv;
    IdWithdraw(s.states, s.pendingIds, s.doneIds, s.nextId, s.h.finished, id);
    LinkWithdraw(s, id);
    CancelWithdraw(s, id);
  }

  lemma TakeInv(s: State, w: Worker, i: nat)
    requires Inv(s) && w in s.workers && s.workers[w] == Idle && i < |s.tasks|
    ensures Inv(Take(s, w, i))
  {
    hide SchedInv, KeyInv, IdInv, LinkInv, CancelInv, CountInv;
    SchedTake(s.tasks, s.workers, s.active, s.pending, s.lastTicket, w, i);
    KeyGoesOn(s.workers, Take(s, w, i).workers, s.holders, w);
    LinkTake(s, w, i);
    CancelTake(s, w, i);
    CountTake(s, w, i);
  }

  // A worker goes on to phase p with the same task, which stays unmarked.
  lemma GoesOnInv(s: State, ws: map<Worker, Phase>, w: Worker)
    requires Inv(s) && GoesOn(s.workers, ws, w) && Unmarked(ws[w]) == Unmarked(s.workers[w])
    requires ws[w].e.id == 0 ==> PlainPhase(ws[w])
    ensures SchedInv(s.tasks, ws, s.active, s.pending, s.lastTicket)
    ensures LinkInv(s.tasks, ws, s.calls, s.pendingIds, s.h.ticketOf, s.h.finished, s.lastTicket)
    ensures CountInv(s.tasks, ws, s.lastTicket, s.stats, s.h)
  {
    hide SchedInv, KeyInv, IdInv, LinkInv, CancelInv, CountInv;
    SchedGoesOn(s.tasks, s.workers, ws, s.active, s.pending, s.lastTicket, w);
    LinkGoesOn(s, ws, w);
    CountGoesOn(s, ws, w);
  }

  // The history of started bodies and the state flags play no part in the statistics.
  lemma CountSame(s: State, ws: map<Worker, Phase>, h: History)
    requires CountInv(s.tasks, ws, s.lastTicket, s.stats, s.h)
    requires h.ticketOf == s.h.ticketOf && h.canceledOk == s.h.canceledOk && h.counted == s.h.counted && h.finished == s.h.finished
    ensures CountInv(s.tasks, ws, s.lastTicket, s.stats, h)
  {
    hide Outstanding;
    forall n ensures CanceledTicket(h, n) <==> CanceledTicket(s.h, n) { }
    hide CanceledTicket;
  }

  lemma PlainFacts(s: State, w: Worker)
    requires Inv(s) && w in s.workers && Busy(s.workers[w])
    ensures s.workers[w].e.id == 0 ==> s.workers[w].e.key == 0 && PlainPhase(s.workers[w]) && 0 !in s.states && 0 !in s.h.canceledOk
    ensures Unmarked(s.workers[w]) && s.workers[w].e.id != 0 ==> s.workers[w].e.id in s.states && s.workers[w].e.id in s.pendingIds
    ensures PhaseOk(s.workers[w], s.states, s.h)
  {
    hide SchedInv, KeyInv, CountInv, TableInv, PhaseOk;
    assert EntryOk(s.workers[w].e, s.h.ticketOf);
    ZeroIsNoId(s);
    PendingKnown(s, w);
  }

  lemma AcquireInv(s: State, w: Worker)
    requires Inv(s) && w in s.workers && s.workers[w].Taken? && s.workers[w].e.key !in s.holders
    ensures Inv(Acquire(s, w, s.workers[w].e))
  {
    hide SchedInv, KeyInv, IdInv, LinkInv, CancelInv, CountInv;
    var e := s.workers[w].e;
    var s' := Acquire(s, w, e);
    PlainFacts(s, w);
    GoesOnInv(s, s'.workers, w);
    KeyAcquire(s.workers, s'.workers, s.holders, w, e.key);
    CountSame(s, s'.workers, s'.h);
    if e.id == 0 { CancelStarts(s, w, e, s.states); } else { CancelGoesOn(s, s'.workers, w); }
  }

  lemma CheckInv(s: State, w: Worker)
    requires Inv(s) && w in s.workers && s.workers[w].Checking? && s.workers[w].e.id in s.states
    ensures Inv(Check(s, w, s.workers[w].e))
  {
    hide SchedInv, KeyInv, IdInv, LinkInv, CancelInv, CountInv;
    var e := s.workers[w].e;
    var s' := Check(s, w, e);
    PlainFacts(s, w);
    GoesOnInv(s, s'.workers, w);
    KeyGoesOn(s.workers, s'.workers, s.holders, w);
    CountSame(s, s'.workers, s'.h);
    IdUpdate(s.states, s.pendingIds, s.doneIds, s.nextId, s.h.finished, e.id, s'.states[e.id]);
    CanceledFlag(s, e.id);
    if s.states[e.id].canceled { CancelSkips(s, w, e); } else { CancelStarts(s, w, e, s'.states); }
  }

  lemma CanceledFlag(s: State, id: TaskId)
    requires Inv(s) && id in s.states
    ensures s.states[id].canceled <==> id in s.h.canceledOk
  {
    hide SchedInv, KeyInv, IdInv, LinkInv, CountInv, Untested, PhaseOk;
  }

  lemma EndBodyInv(s: State, w: Worker, throws: bool)
    requires Inv(s) && w in s.workers && s.workers[w].Running?
    ensures Inv(EndBody(s, w, s.workers[w].e, throws))
  {
    hide SchedInv, KeyInv, IdInv, LinkInv, CancelInv, CountInv;
    var e := s.workers[w].e;
    PlainFacts(s, w);
    if e.id == 0 {
      EndPlain(s, w, throws);
    } else {
      var s' := EndBody(s, w, e, throws);
      GoesOnInv(s, s'.workers, w);
      KeyGoesOn(s.workers, s'.workers, s.holders, w);
      CountSame(s, s'.workers, s'.h);
      NotCounted(s, w);
      if throws {
        CancelThrows(s, w, e, Releasing(e, false));
        OutcomeThrows(s.stats, s.h, e.ticket);
      } else {
        CancelGoesOn(s, s'.workers, w);
      }
    }
  }

  lemma EndPlain(s: State, w: Worker, throws: bool)
    requires Inv(s) && w in s.workers && s.workers[w].Running? && s.workers[w].e.id == 0
    ensures Inv(EndBody(s, w, s.workers[w].e, throws))
  {
    hide SchedInv, IdInv, LinkInv, CancelInv, CountInv, KeyInv, CanceledTicket;
    var e := s.workers[w].e;
    var s' := EndBody(s, w, e, throws);
    PlainFacts(s, w);
    SchedGoesOn(s.tasks, s.workers, s'.workers, s.active, s.pending, s.lastTicket, w);
    LinkGoesOn(s, s'.workers, w);
    TicketCanceled(s, w);
    CountSettles(s, s'.workers, w, s'.stats, s'.h, true);
    PlainEnds(s, w, throws);
    PlainOutcome(s, w, throws);
    KeyPlain(s.workers, s'.workers, s.holders, w);
  }

  lemma PlainOutcome(s: State, w: Worker, throws: bool)
    requires Inv(s) && w in s.workers && s.workers[w].Running? && s.workers[w].e.id == 0
    ensures var s' := EndBody(s, w, s.workers[w].e, throws); OutcomeInv(s'.stats, s'.h)
  {
    hide SchedInv, IdInv, LinkInv, CancelInv, CountInv, KeyInv, OutcomeInv;
    var t := s.workers[w].e.ticket;
    PlainFacts(s, w);
    NotCounted(s, w);
    var h := if throws then s.h.(threw := s.h.threw + {t}) else s.h;
    if throws { OutcomeThrows(s.stats, s.h, t); }
    OutcomeCounts(s.stats, h, t);
  }

  lemma PlainEnds(s: State, w: Worker, throws: bool)
    requires Inv(s) && w in s.workers && s.workers[w].Running? && s.workers[w].e.id == 0
    ensures Canceling(EndBody(s, w, s.workers[w].e, throws))
  {
    hide SchedInv, IdInv, LinkInv, CancelInv, CountInv, KeyInv;
    var e := s.workers[w].e;
    var s' := EndBody(s, w, e, throws);
    var a := s.(h := s.h.(threw := s'.h.threw), workers := s'.workers);
    if throws { CancelThrows(s, w, e, Leaving(e)); } else { CancelGoesOn(s, s'.workers, w); }
    HistoryKept(a, s'.h);
  }

  lemma KeyPlain(ws: map<Worker, Phase>, ws': map<Worker, Phase>, holders: map<nat, Worker>, w: Worker)
    requires KeyInv(ws, holders) && w in ws && w in ws' && ws' == ws[w := ws'[w]]
    requires Busy(ws[w]) && ws[w].e.key == 0 && Busy(ws'[w]) && ws'[w].e.key == 0
    ensures KeyInv(ws', holders)
  {
  }

  lemma MarkInv(s: State, w: Worker)
    requires Inv(s) && w in s.workers && s.workers[w].Marking? && s.workers[w].e.id in s.states
    ensures Inv(MarkTaskDone(s, w, s.workers[w]))
  {
    hide SchedInv, IdInv, LinkInv, CancelInv, CountInv, KeyInv, CanceledTicket, Kept, Dropped;
    var p := s.workers[w];
    var s' := MarkTaskDone(s, w, p);
    PlainFacts(s, w);
    LinkMark(s, w);
    SchedGoesOn(s.tasks, s.workers, s'.workers, s.active, s.pending, s.lastTicket, w);
    KeyGoesOn(s.workers, s'.workers, s.holders, w);
    IdMark(s.states, s.pendingIds, s.doneIds, s.nextId, s.h.finished, p.e.id, s.states[p.e.id].(done := true, succeeded := p.executed && !p.failed));
    CancelMark(s, w);
    TicketCanceled(s, w);
    CanceledFlag(s, p.e.id);
    CountSettles(s, s'.workers, w, s'.stats, s'.h, !s.states[p.e.id].canceled && (p.failed || p.executed));
    MarkedOutcome(s, w);
  }

  lemma MarkedOutcome(s: State, w: Worker)
    requires Inv(s) && w in s.workers && s.workers[w].Marking? && s.workers[w].e.id in s.states
    ensures var s' := MarkTaskDone(s, w, s.workers[w]); OutcomeInv(s'.stats, s'.h)
  {
    hide SchedInv, IdInv, LinkInv, CancelInv, CountInv, KeyInv, Kept, Dropped;
    PlainFacts(s, w);
    CanceledFlag(s, s.workers[w].e.id);
    NotCounted(s, w);
    OutcomeCounts(s.stats, s.h, s.workers[w].e.ticket);
  }

  lemma ReleaseInv(s: State, w: Worker)
    requires Inv(s) && w in s.workers && s.workers[w].Releasing?
    ensures Inv(Release(s, w, s.workers[w]))
  {
    hide SchedInv, IdInv, LinkInv, CancelInv, CountInv, KeyInv;
    var s' := Release(s, w, s.workers[w]);
    PlainFacts(s, w);
    GoesOnInv(s, s'.workers, w);
    KeyRelease(s.workers, s'.workers, s.holders, w, s.workers[w].e.key);
    CancelGoesOn(s, s'.workers, w);
  }

  lemma LeaveInv(s: State, w: Worker)
    requires Inv(s) && w in s.workers && s.workers[w].Leaving?
    ensures Inv(Leave(s, w)) && s.active > 0 && s.pending > 0
  {
    hide SchedInv, IdInv, LinkInv, CancelInv, CountInv, KeyInv;
    SchedLeave(s.tasks, s.workers, s.active, s.pending, s.lastTicket, w);
    KeyGoesOn(s.workers, Leave(s, w).workers, s.holders, w);
    LinkLeave(s, w);
    CancelGoesOn(s, Leave(s, w).workers, w);
    CountLeave(s, w);
  }

  lemma CancelingInv(s: State, id: TaskId)
    requires Inv(s) && Cancelable(s, id)
    ensures Inv(Cancel(s, id))
  {
    hide SchedInv, IdInv, LinkInv, CancelInv, CountInv, KeyInv;
    IdUpdate(s.states, s.pendingIds, s.doneIds, s.nextId, s.h.finished, id, s.states[id].(canceled := true));
    CancelCancel(s, id);
    CountCancel(s, id);
  }

  lemma StepInv(s: State, ev: Event)
    requires Inv(s)
    ensures Inv(Step(s, ev))
  {
    hide Inv, Register, Accept, Refuse, Withdraw, Take, Acquire, Check, EndBody, MarkTaskDone, Release, Leave, Cancel;
    match ev {
      case Registers(key, priority) => RegisterInv(s, key, priority);
      case SubmitsPlain(priority) => AcceptInv(s, 0, 0, priority);
      case Enqueues(id) => if id in s.calls && s.calls[id].Entering? {
        CallsHaveIds(s);
        AcceptInv(s, id, s.calls[id].key, s.calls[id].priority);
      }
      case IsRefused(id, full) => RefuseInv(s, id, full);
      case Withdraws(id) => if id in s.calls { WithdrawInv(s, id); }
      case Takes(w, i) => if w in s.workers && s.workers[w] == Idle && i < |s.tasks| { TakeInv(s, w, i); }
      case Acquires(w) => if w in s.workers && s.workers[w].Taken? && s.workers[w].e.key !in s.holders { AcquireInv(s, w); }
      case Checks(w) => if w in s.workers && s.workers[w].Checking? && s.workers[w].e.id in s.states { CheckInv(s, w); }
      case BodyEnds(w, throws) => if w in s.workers && s.workers[w].Running? { EndBodyInv(s, w, throws); }
      case Marks(w) => if w in s.workers && s.workers[w].Marking? && s.workers[w].e.id in s.states { MarkInv(s, w); }
      case Releases(w) => if w in s.workers && s.workers[w].Releasing? { ReleaseInv(s, w); }
      case Leaves(w) => if w in s.workers && s.workers[w].Leaving? { LeaveInv(s, w); }
      case Cancels(id) => if Cancelable(s, id) { CancelingInv(s, id); }
    }
  }

  lemma CallsHaveIds(s: State)
    requires Inv(s)
    ensures 0 !in s.calls
  {
  }

  // ---------------------------------------------------------------------------------------
  // Runs

  function Run(s: State, events: seq<Event>): State
    decreases |events|
  {
    if events == [] then s else Step(Run(s, events[..|events| - 1]), events[|events| - 1])
  }

  ghost predicate Reachable(s: State) {
    exists workers, events :: s == Run(Init(workers), events)
  }

  lemma {:induction false} RunInv(s: State, events: seq<Event>)
    requires Inv(s)
    ensures Inv(Run(s, events))
    decreases |events|
  {
    hide Inv, Step;
    if events != [] {
      RunInv(s, events[..|events| - 1]);
      StepInv(Run(s, events[..|events| - 1]), events[|events| - 1]);
    }
  }

  lemma ReachableInv(s: State)
    requires Reachable(s)
    ensures Inv(s)
  {
    hide Inv, Init, Run;
    var workers, events :| s == Run(Init(workers), events);
    InitInv(workers);
    RunInv(Init(workers), events);
  }

  // pending_tasks_ counts the queued tasks and the busy workers, and the queue is in the order
  // of enqueueing.
  lemma PendingIsQueuedAndActive(s: State)
    requires Reachable(s)
    ensures s.pending == |s.tasks| + |BusyWorkers(s.workers)| && s.active == |BusyWorkers(s.workers)|
    ensures forall i, j | 0 <= i < j < |s.tasks| :: s.tasks[i].ticket < s.tasks[j].ticket
  {
    hide Run, KeyInv, IdInv, LinkInv, CancelInv, CountInv, BusyWorkers;
    ReachableInv(s);
  }

  // No body starts twice, and none starts for an id that some TryCancel accepted.
  lemma BodyRunsOnceUnlessCanceled(s: State, id: TaskId)
    requires Reachable(s)
    ensures Distinct(s.h.log)
    ensures id in s.h.canceledOk && id in s.h.ticketOf ==> s.h.ticketOf[id] !in s.h.log
    ensures forall jd | jd in s.h.ticketOf && jd != id && id in s.h.ticketOf :: s.h.ticketOf[jd] != s.h.ticketOf[id]
  {
    hide Run, KeyInv, IdInv, SchedInv, EntryInv, PendingInv, CountInv, Distinct, Untested, PhaseOk;
    ReachableInv(s);
  }

  // Wait returns when its task is done: the body then ran, exactly once, or the task was canceled.
  lemma DoneMeansRanOrCanceled(s: State, id: TaskId)
    requires Reachable(s) && id in s.states && s.states[id].done
    ensures id in s.h.ticketOf && Distinct(s.h.log)
    ensures s.h.ticketOf[id] in s.h.log <==> id !in s.h.canceledOk
  {
    hide Run, KeyInv, SchedInv, LinkInv, CountInv, Distinct, Untested, PhaseOk;
    ReachableInv(s);
    KeptFacts(s.h.finished);
    assert Settled(s.h, id);
  }

  // Two bodies with the same serial key never run at the same time.
  lemma SerialKeysExclude(s: State, w: Worker, v: Worker)
    requires Reachable(s) && w in s.workers && v in s.workers && s.workers[w].Running? && s.workers[v].Running?
    requires s.workers[w].e.key == s.workers[v].e.key != 0
    ensures w == v
  {
    hide Run, IdInv, SchedInv, LinkInv, CountInv, CancelInv;
    ReachableInv(s);
  }

  // When WaitAll may return, every task accepted so far was counted or canceled, no worker has
  // one, and the statistics balance.
  lemma WaitAllMeansFinished(s: State)
    requires Reachable(s) && s.pending == 0 && s.active == 0
    ensures s.tasks == [] && forall w | w in s.workers :: s.workers[w] == Idle
    ensures forall n | 0 < n <= s.lastTicket :: n in s.h.counted || CanceledTicket(s.h, n)
    ensures forall id | id in s.h.ticketOf :: s.h.ticketOf[id] in s.h.counted || id in s.h.canceledOk
  {
    hide Run, KeyInv, IdInv, EntryInv, PendingInv, CancelInv;
    ReachableInv(s);
    NobodyBusy(s.workers);
  }

  lemma NobodyBusy(ws: map<Worker, Phase>)
    requires |BusyWorkers(ws)| == 0
    ensures forall w | w in ws :: ws[w] == Idle
  {
    assert BusyWorkers(ws) == {};
    assert forall w | w in ws :: w !in BusyWorkers(ws);
  }

  // The tickets of accepted tasks that some TryCancel accepted.
  ghost function CanceledTickets(h: History): set<nat> {
    set id | id in h.canceledOk && id in h.ticketOf :: h.ticketOf[id]
  }

  predicate IsTicket(n: int, last: nat) {
    0 < n <= last
  }

  // The accepted tasks neither finished nor canceled.
  ghost function Unfinished(s: State): set<nat> {
    set n: nat | 0 < n <= s.lastTicket && IsTicket(n, s.lastTicket) && Outstanding(s.tasks, s.workers, n) && !CanceledTicket(s.h, n)
  }

  // submitted = completed + failed + canceled tasks + unfinished ones, each canceled task
  // counted once; stats_.canceled may be larger.
  lemma StatisticsBalance(s: State)
    requires Reachable(s)
    ensures s.stats.submitted == s.stats.completed + s.stats.failed + |CanceledTickets(s.h)| + |Unfinished(s)|
    ensures s.stats.canceled >= |s.h.canceledOk|
  {
    hide Run, KeyInv, IdInv, LinkInv, CancelInv, SchedInv, Outstanding;
    ReachableInv(s);
    CanceledInRange(s);
    var c, x, u := s.h.counted, CanceledTickets(s.h), Unfinished(s);
    forall n | 0 < n <= s.lastTicket ensures n in c || n in x || n in u { assert IsTicket(n, s.lastTicket); }
    forall n ensures n in x <==> CanceledTicket(s.h, n) { }
    ThreeParts(s.lastTicket, c, x, u);
  }

  lemma CanceledInRange(s: State)
    requires Inv(s)
    ensures forall n | n in CanceledTickets(s.h) :: 0 < n <= s.lastTicket
  {
    hide KeyInv, IdInv, EntryInv, PendingInv, CancelInv, SchedInv, CountInv;
  }

  lemma ThreeParts(last: nat, c: set<nat>, x: set<nat>, u: set<nat>)
    requires c !! x && c !! u && x !! u && (forall n | n in c || n in x || n in u :: 0 < n <= last)
    requires forall n | 0 < n <= last :: n in c || n in x || n in u
    ensures last == |c| + |x| + |u|
  {
    TicketCount(last, c + x + u);
  }

  lemma {:induction false} TicketCount(last: nat, s: set<nat>)
    requires forall n: nat :: n in s <==> 0 < n <= last
    ensures |s| == last
  {
    if last == 0 {
      assert s == {};
    } else {
      TicketCount(last - 1, s - {last});
    }
  }

  lemma RecentlyKept(finished: seq<TaskId>, i: nat)
    requires i < |finished| && |finished| - 1 - i < RETAINED
    ensures finished[i] in Kept(finished)
  {
    var k := |finished| - RETAINED;
    if k > 0 { assert Kept(finished)[i - k] == finished[i]; }
  }

  // An id is forgotten only after RETAINED other tasks finished after it.
  lemma ForgottenOnlyWhenOld(s: State, id: TaskId)
    requires Reachable(s) && id in s.h.ticketOf && id !in s.states
    ensures exists i :: 0 <= i < |s.h.finished| && s.h.finished[i] == id && |s.h.finished| - 1 - i >= RETAINED
    ensures Distinct(s.h.finished)
  {
    hide Run, KeyInv, EntryInv, PendingInv, CancelInv, SchedInv, CountInv, Distinct;
    ReachableInv(s);
    assert id in s.h.finished && id !in s.doneIds;
    var i :| 0 <= i < |s.h.finished| && s.h.finished[i] == id;
    if |s.h.finished| - 1 - i < RETAINED { RecentlyKept(s.h.finished, i); }
  }

  // Wait on an accepted id answers NotFound exactly when RETAINED other tasks finished after it.
  lemma WaitAnswersNotFound(s: State, id: TaskId)
    requires Reachable(s) && id in s.h.ticketOf
    ensures id !in s.states <==>
      exists i :: 0 <= i < |s.h.finished| && s.h.finished[i] == id && |s.h.finished| - 1 - i >= RETAINED
  {
    hide Run, KeyInv, EntryInv, PendingInv, CancelInv, SchedInv, CountInv, Kept;
    ReachableInv(s);
    if id !in s.states {
      ForgottenOnlyWhenOld(s, id);
    }
    forall i | 0 <= i < |s.h.finished| && s.h.finished[i] == id && |s.h.finished| - 1 - i >= RETAINED ensures id !in s.states {
      LongForgotten(s.h.finished, i);
    }
  }

  lemma LongForgotten(finished: seq<TaskId>, i: nat)
    requires Distinct(finished) && i < |finished| && |finished| - 1 - i >= RETAINED
    ensures finished[i] !in Kept(finished)
  {
    var k := |finished| - RETAINED;
    forall j | 0 <= j < RETAINED ensures Kept(finished)[j] != finished[i] {
      assert Kept(finished)[j] == finished[k + j];
    }
  }

  // IsTaskSucceeded on a finished task: the body ran and returned, and nobody canceled it.
  lemma SucceededMeansReturned(s: State, id: TaskId)
    requires Reachable(s) && id in s.states && s.states[id].done
    ensures s.states[id].succeeded <==>
      id in s.h.ticketOf && id !in s.h.canceledOk && s.h.ticketOf[id] in s.h.log && s.h.ticketOf[id] !in s.h.threw
  {
    hide Run, KeyInv, SchedInv, LinkInv, CountInv, Distinct, Untested, PhaseOk, IdInv;
    ReachableInv(s);
    DoneMeansRanOrCanceled(s, id);
  }

  // states_ holds exactly the ids in pending_ids_ and done_ids_, which do not meet.
  lemma StatesArePendingOrDone(s: State)
    requires Reachable(s)
    ensures s.states.Keys == s.pendingIds + Elements(s.doneIds) && s.pendingIds !! Elements(s.doneIds)
    ensures |s.doneIds| <= RETAINED && |Elements(s.doneIds)| == |s.doneIds|
  {
    hide Run, KeyInv, LinkInv, CancelInv, SchedInv, CountInv;
    ReachableInv(s);
    KeptFacts(s.h.finished);
    assert Distinct(s.doneIds);
    DistinctSize(s.doneIds);
  }

  // The two counters tell what became of the counted tasks.
  lemma CompletedReturnedFailedThrew(s: State)
    requires Reachable(s)
    ensures s.stats.completed == |s.h.counted - s.h.threw| && s.stats.failed == |s.h.counted * s.h.threw|
    ensures forall n | n in s.h.threw :: n in s.h.log
  {
    hide Run, KeyInv, IdInv, LinkInv, SchedInv, CountInv, Untested, PhaseOk, Distinct;
    ReachableInv(s);
  }

  // How far stats_.canceled is ahead of the number of canceled ids.
  ghost function Drift(s: State): int {
    s.stats.canceled - |s.h.canceledOk|
  }

  // TryCancel counts an id again exactly when the id is canceled already.
  lemma RecountsCanceledIds(s: State, id: TaskId)
    requires Reachable(s) && Cancelable(s, id)
    ensures Drift(Cancel(s, id)) == Drift(s) + if s.states[id].canceled then 1 else 0
  {
    hide Inv, Run;
    ReachableInv(s);
    CanceledFlag(s, id);
    if id in s.h.canceledOk { assert s.h.canceledOk + {id} == s.h.canceledOk; }
  }

  // One task, canceled twice: one canceled id, two in the statistics.
  lemma CanceledTwice()
    ensures var s := Run(Init({}), [Registers(0, Normal), Enqueues(1), Cancels(1), Cancels(1)]);
      s.stats.canceled == 2 && s.h.canceledOk == {1} && s.stats.submitted == 1
  {
    var a, b, c, s0 := Registers(0, Normal), Enqueues(1), Cancels(1), Init({});
    RunNext(s0, [], a);
    RunNext(s0, [a], b);
    RunNext(s0, [a, b], c);
    RunNext(s0, [a, b, c], c);
    var s1 := Register(s0, 0, Normal);
    var s2 := Accept(s1, 1, 0, Normal);
    var s3 := Cancel(s2, 1);
    assert [] + [a] == [a] && [a] + [b] == [a, b] && [a, b] + [c] == [a, b, c] && [a, b, c] + [c] == [a, b, c, c];
    assert Run(s0, [a, b, c]) == s3;
    assert Run(s0, [a, b, c, c]) == Cancel(s3, 1);
  }

  lemma RunNext(s: State, events: seq<Event>, ev: Event)
    ensures Run(s, events + [ev]) == Step(Run(s, events), ev)
  {
    assert (events + [ev])[..|events + [ev]| - 1] == events;
  }
}
