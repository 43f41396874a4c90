/**
 How the executor's steps keep tasks, ids and cancellations in line.
 */
module ExecutorLinks {
  import opened Sums
  import opened ExecutorModel
  import opened ExecutorSteps

  ghost predicate Link(s: State) {
    LinkInv(s.tasks, s.workers, s.calls, s.pendingIds, s.h.ticketOf, s.h.finished, s.lastTicket)
  }

  ghost predicate Ids(s: State) {
    IdInv(s.states, s.pendingIds, s.doneIds, s.nextId, s.h.finished)
  }

  ghost predicate Sched(s: State) {
    SchedInv(s.tasks, s.workers, s.active, s.pending, s.lastTicket)
  }

  ghost predicate Canceling(s: State) {
    CancelInv(s.tasks, s.workers, s.states, s.nextId, s.h, s.lastTicket)
  }

  // ---------------------------------------------------------------------------------------
  // Ids and the tasks they belong to

  lemma LinkGoesOn(s: State, ws: map<Worker, Phase>, w: Worker)
    requires Link(s) && GoesOn(s.workers, ws, w) && (Unmarked(ws[w]) ==> Unmarked(s.workers[w]))
    requires ws[w].e.id == 0 ==> PlainPhase(ws[w])
    ensures LinkInv(s.tasks, ws, s.calls, s.pendingIds, s.h.ticketOf, s.h.finished, s.lastTicket)
  {
  }

  lemma LinkRegister(s: State, key: nat, priority: Priority)
    requires Link(s) && Ids(s)
    ensures Link(Register(s, key, priority))
  {
    hide Kept, Distinct;
  }

  lemma LinkAccept(s: State, id: TaskId, key: nat, priority: Priority)
    requires Link(s) && Sched(s) && (id == 0 || id in s.calls) && (id == 0 ==> key == 0)
    ensures Link(Accept(s, id, key, priority))
  {
    hide EntryInv, PendingInv, TableInv, SchedInv;
    AcceptTable(s, id, key, priority);
    AcceptEntries(s, id, key, priority);
    AcceptPending(s, id, key, priority);
  }

  lemma AcceptTable(s: State, id: TaskId, key: nat, priority: Priority)
    requires Link(s) && (id == 0 || id in s.calls)
    ensures var s' := Accept(s, id, key, priority); TableInv(s'.calls, s'.pendingIds, s'.h.ticketOf, s'.h.finished, s'.lastTicket)
  {
    hide EntryInv, PendingInv;
  }

  lemma AcceptEntries(s: State, id: TaskId, key: nat, priority: Priority)
    requires Link(s) && Sched(s) && (id == 0 || id in s.calls) && (id == 0 ==> key == 0)
    ensures var s' := Accept(s, id, key, priority); EntryInv(s'.tasks, s'.workers, s'.h.ticketOf)
  {
    hide PendingInv, BusyWorkers;
    var e := Entry(id, key, priority, s.lastTicket + 1);
    var t := Accept(s, id, key, priority).h.ticketOf;
    forall f | f in s.tasks + [e] ensures EntryOk(f, t) {
      if f in s.tasks { AcceptKeepsEntry(s, id, f); }
    }
    forall w | w in s.workers && Busy(s.workers[w]) ensures EntryOk(s.workers[w].e, t) { AcceptKeepsEntry(s, id, s.workers[w].e); }
  }

  lemma AcceptKeepsEntry(s: State, id: TaskId, f: Entry)
    requires EntryOk(f, s.h.ticketOf) && f.ticket <= s.lastTicket && id !in s.h.ticketOf
    ensures EntryOk(f, if id == 0 then s.h.ticketOf else s.h.ticketOf[id := s.lastTicket + 1])
  {
  }

  lemma AcceptPending(s: State, id: TaskId, key: nat, priority: Priority)
    requires Link(s) && (id == 0 || id in s.calls)
    ensures var s' := Accept(s, id, key, priority); PendingInv(s'.tasks, s'.workers, s'.pendingIds)
  {
    hide EntryInv;
  }

  lemma LinkWithdraw(s: State, id: TaskId)
    requires Link(s) && id in s.calls
    ensures Link(Withdraw(s, id))
  {
  }

  lemma LinkTake(s: State, w: Worker, i: nat)
    requires Link(s) && Sched(s) && i < |s.tasks| && w in s.workers && s.workers[w] == Idle
    ensures Link(Take(s, w, i))
  {
    hide BusyWorkers;
    Removed(s.tasks, i);
    assert s.tasks[i] in s.tasks;
  }

  lemma LinkLeave(s: State, w: Worker)
    requires Link(s) && w in s.workers
    ensures Link(Leave(s, w))
  {
  }

  // The id leaves pending_ids_ only once: no other task shares it.
  lemma LinkMark(s: State, w: Worker)
    requires Link(s) && Sched(s) && w in s.workers && s.workers[w].Marking? && s.workers[w].e.id in s.states
    ensures Link(MarkTaskDone(s, w, s.workers[w])) && s.workers[w].e.id != 0 && s.workers[w].e.id in s.pendingIds
  {
    hide BusyWorkers, Kept, Dropped, TableInv, SchedInv, EntryOk;
    NoCall(s, w);
    MarkTable(s, s.workers[w].e.id);
    forall e | e in s.tasks && e.id != 0 ensures e.id != s.workers[w].e.id { TasksDiffer(s, w, e); }
    forall v | v in s.workers && v != w && Unmarked(s.workers[v]) && s.workers[v].e.id != 0 ensures s.workers[v].e.id != s.workers[w].e.id {
      WorkersDiffer(s, w, v);
    }
  }

  lemma MarkTable(s: State, id: TaskId)
    requires Link(s) && id !in s.calls
    ensures TableInv(s.calls, s.pendingIds - {id}, s.h.ticketOf, s.h.finished + [id], s.lastTicket)
  {
    hide EntryInv, PendingInv;
    assert forall jd :: jd in s.h.finished + [id] <==> jd in s.h.finished || jd == id;
  }

  lemma TasksDiffer(s: State, w: Worker, e: Entry)
    requires Link(s) && Sched(s) && w in s.workers && Busy(s.workers[w]) && s.workers[w].e.id != 0 && e in s.tasks
    ensures e.id != s.workers[w].e.id
  {
    hide BusyWorkers, TableInv, PendingInv;
    assert EntryOk(e, s.h.ticketOf) && EntryOk(s.workers[w].e, s.h.ticketOf);
  }

  lemma WorkersDiffer(s: State, w: Worker, v: Worker)
    requires Link(s) && Sched(s) && w in s.workers && Busy(s.workers[w]) && s.workers[w].e.id != 0
    requires v in s.workers && Busy(s.workers[v]) && v != w
    ensures s.workers[v].e.id != s.workers[w].e.id
  {
    hide BusyWorkers, TableInv, PendingInv;
    assert EntryOk(s.workers[v].e, s.h.ticketOf) && EntryOk(s.workers[w].e, s.h.ticketOf);
  }

  lemma NoCall(s: State, w: Worker)
    requires Link(s) && w in s.workers && Busy(s.workers[w])
    ensures s.workers[w].e.id == 0 || s.workers[w].e.id !in s.calls
  {
    hide PendingInv;
    assert EntryOk(s.workers[w].e, s.h.ticketOf);
  }

  // ---------------------------------------------------------------------------------------
  // Cancellation

  // An accepted task's id is below next_task_id_.
  lemma EntryOld(s: State, e: Entry)
    requires Link(s) && Ids(s) && EntryOk(e, s.h.ticketOf)
    ensures e.id < s.nextId
  {
    hide Kept, Distinct, EntryInv, PendingInv;
  }

  lemma CancelRegister(s: State, key: nat, priority: Priority)
    requires Canceling(s) && Link(s) && Ids(s)
    ensures Canceling(Register(s, key, priority))
  {
    hide IdInv, TableInv, PendingInv, FlagInv, Distinct, EntryOk;
    RegisterFlags(s, key, priority);
    forall e | e in s.tasks ensures e.id < s.nextId { EntryOld(s, e); }
    forall w | w in s.workers && Busy(s.workers[w]) ensures s.workers[w].e.id < s.nextId { EntryOld(s, s.workers[w].e); }
  }

  lemma RegisterFlags(s: State, key: nat, priority: Priority)
    requires Canceling(s) && Link(s) && Ids(s)
    ensures var s' := Register(s, key, priority); FlagInv(s'.states, s'.nextId, s'.h)
  {
    hide Kept, Distinct, EntryInv, PendingInv;
  }

  lemma CancelAccept(s: State, id: TaskId, key: nat, priority: Priority)
    requires Canceling(s) && Link(s) && (id == 0 || id in s.calls) && Ids(s)
    ensures Canceling(Accept(s, id, key, priority))
  {
    hide Distinct, EntryInv, PendingInv, PhaseOk, Kept, FlagInv, TableInv, IdInv;
    var s' := Accept(s, id, key, priority);
    AcceptFlags(s, id, key, priority);
    CallUntested(s, id);
    forall e | e in s'.tasks ensures Untested(e, s'.states, s'.h) {
      if e in s.tasks { assert Untested(e, s.states, s.h); }
    }
    forall w | w in s.workers ensures PhaseOk(s.workers[w], s'.states, s'.h) { SamePhase(s.workers[w], s.states, s.h, s'.h); }
  }

  lemma AcceptFlags(s: State, id: TaskId, key: nat, priority: Priority)
    requires Canceling(s) && Link(s) && (id == 0 || id in s.calls) && Ids(s)
    ensures var s' := Accept(s, id, key, priority); FlagInv(s'.states, s'.nextId, s'.h)
  {
    hide Distinct, EntryInv, PendingInv, PhaseOk, Kept, Untested;
    CallNotDone(s, id);
  }

  // A registered id that has not been enqueued is neither started nor done.
  lemma CallNotDone(s: State, id: TaskId)
    requires Link(s) && Ids(s) && (id == 0 || id in s.calls)
    ensures id in s.states ==> !s.states[id].done
    ensures id !in s.h.ticketOf && id !in s.h.finished
  {
    hide Distinct, EntryInv, PendingInv;
    KeptFacts(s.h.finished);
  }

  lemma CallUntested(s: State, id: TaskId)
    requires Canceling(s) && Link(s) && Ids(s) && (id == 0 || id in s.calls)
    ensures id in s.states ==> !s.states[id].started
  {
    hide Distinct, LinkInv, IdInv, PhaseOk, Untested;
    CallNotDone(s, id);
  }

  lemma SamePhase(p: Phase, states: map<TaskId, TaskState>, h: History, h': History)
    requires PhaseOk(p, states, h) && h'.log == h.log && h'.canceledOk == h.canceledOk && h'.threw == h.threw
    ensures PhaseOk(p, states, h')
  {
  }

  lemma CancelWithdraw(s: State, id: TaskId)
    requires Canceling(s)
    ensures Canceling(Withdraw(s, id))
  {
    hide Distinct;
  }

  lemma CancelTake(s: State, w: Worker, i: nat)
    requires Canceling(s) && Sched(s) && i < |s.tasks|
    ensures Canceling(Take(s, w, i))
  {
    hide Distinct, FlagInv, BusyWorkers;
    Removed(s.tasks, i);
    assert s.tasks[i] in s.tasks;
  }

  // A worker goes on without starting a body and without touching a state.
  lemma CancelGoesOn(s: State, ws: map<Worker, Phase>, w: Worker)
    requires Canceling(s) && w in s.workers && w in ws && ws == s.workers[w := ws[w]] && PhaseOk(ws[w], s.states, s.h)
    ensures CancelInv(s.tasks, ws, s.states, s.nextId, s.h, s.lastTicket)
  {
    hide Distinct, FlagInv, PhaseOk;
  }

  // The body of w's task starts.
  lemma CancelStarts(s: State, w: Worker, e: Entry, states: map<TaskId, TaskState>)
    requires Canceling(s) && Link(s) && Sched(s) && w in s.workers && (s.workers[w].Taken? || s.workers[w].Checking?) && s.workers[w].e == e
    requires Ids(s) && states.Keys == s.states.Keys && e.id !in s.h.canceledOk
    requires forall id | id in states && id != e.id :: states[id] == s.states[id]
    requires e.id in states ==> states[e.id] == s.states[e.id].(started := true)
    ensures var h := s.h.(log := s.h.log + [e.ticket]);
      CancelInv(s.tasks, s.workers[w := Running(e)], states, s.nextId, h, s.lastTicket)
  {
    hide IdInv, TableInv, PendingInv, FlagInv, Distinct, SchedInv, EntryInv, EntryOk, PhaseOk;
    var h := s.h.(log := s.h.log + [e.ticket]);
    assert PhaseOk(s.workers[w], s.states, s.h);
    StartsLog(s, w, e);
    StartsFlags(s, w, e, states);
    forall f | f in s.tasks ensures Untested(f, states, h) { StartsTask(s, w, e, states, f); }
    forall v | v in s.workers && v != w ensures PhaseOk(s.workers[v], states, h) { StartsWorker(s, w, e, states, v); }
    NotThrown(s, w, e);
    StartsPhase(s, w, e, states);
  }

  lemma NotThrown(s: State, w: Worker, e: Entry)
    requires Canceling(s) && w in s.workers && (s.workers[w].Taken? || s.workers[w].Checking?) && s.workers[w].e == e
    ensures e.ticket !in s.h.threw
  {
    hide Distinct;
    assert PhaseOk(s.workers[w], s.states, s.h);
  }

  lemma StartsLog(s: State, w: Worker, e: Entry)
    requires Canceling(s) && Sched(s) && w in s.workers && (s.workers[w].Taken? || s.workers[w].Checking?) && s.workers[w].e == e
    ensures Distinct(s.h.log + [e.ticket]) && forall n | n in s.h.log + [e.ticket] :: n <= s.lastTicket
  {
    hide FlagInv, BusyWorkers;
    assert PhaseOk(s.workers[w], s.states, s.h);
  }

  lemma StartsPhase(s: State, w: Worker, e: Entry, states: map<TaskId, TaskState>)
    requires e.id !in s.h.canceledOk && (e.id in states ==> states[e.id].started) && e.ticket !in s.h.threw
    ensures PhaseOk(Running(e), states, s.h.(log := s.h.log + [e.ticket]))
  {
  }

  lemma StartsFlags(s: State, w: Worker, e: Entry, states: map<TaskId, TaskState>)
    requires Canceling(s) && Link(s) && w in s.workers && Busy(s.workers[w]) && s.workers[w].e == e && Ids(s)
    requires states.Keys == s.states.Keys && e.id !in s.h.canceledOk
    requires forall id | id in states && id != e.id :: states[id] == s.states[id]
    requires e.id in states ==> states[e.id] == s.states[e.id].(started := true)
    ensures FlagInv(states, s.nextId, s.h.(log := s.h.log + [e.ticket]))
  {
    hide Distinct, PendingInv, PhaseOk, Kept, EntryInv;
    TicketOwner(s, w, e);
  }

  // Only e's id has e's ticket.
  lemma TicketOwner(s: State, w: Worker, e: Entry)
    requires Link(s) && w in s.workers && Busy(s.workers[w]) && s.workers[w].e == e && Ids(s)
    ensures forall id | id in s.h.ticketOf && s.h.ticketOf[id] == e.ticket :: id == e.id && id != 0
    ensures e.id in s.states ==> e.id in s.h.ticketOf
  {
    hide PendingInv, Distinct, Kept;
    assert EntryOk(e, s.h.ticketOf);
    if e.id == 0 { ZeroIsNoId(s); }
  }

  lemma ZeroIsNoId(s: State)
    requires Ids(s)
    ensures 0 !in s.states
  {
    KeptFacts(s.h.finished);
  }

  lemma StartsTask(s: State, w: Worker, e: Entry, states: map<TaskId, TaskState>, f: Entry)
    requires Canceling(s) && Link(s) && Sched(s) && w in s.workers && Busy(s.workers[w]) && s.workers[w].e == e && f in s.tasks && Ids(s)
    requires states.Keys == s.states.Keys && forall id | id in states && id != e.id :: states[id] == s.states[id]
    ensures Untested(f, states, s.h.(log := s.h.log + [e.ticket]))
  {
    hide Distinct, LinkInv, PhaseOk, IdInv, FlagInv, BusyWorkers;
    if e.id != 0 { TasksDiffer(s, w, f); }
    ZeroIsNoId(s);
    assert Untested(f, s.states, s.h);
  }

  lemma StartsWorker(s: State, w: Worker, e: Entry, states: map<TaskId, TaskState>, v: Worker)
    requires Canceling(s) && Link(s) && Sched(s) && w in s.workers && Busy(s.workers[w]) && s.workers[w].e == e && Ids(s)
    requires v in s.workers && v != w
    requires states.Keys == s.states.Keys && forall id | id in states && id != e.id :: states[id] == s.states[id]
    ensures PhaseOk(s.workers[v], states, s.h.(log := s.h.log + [e.ticket]))
  {
    hide Distinct, LinkInv, IdInv, FlagInv, BusyWorkers;
    if Busy(s.workers[v]) && e.id != 0 { WorkersDiffer(s, w, v); }
    ZeroIsNoId(s);
    assert PhaseOk(s.workers[v], s.states, s.h);
  }

  // Two state tables agree on the flags started and canceled, as far as the second goes.
  ghost predicate SameFlags(states: map<TaskId, TaskState>, states': map<TaskId, TaskState>) {
    forall id | id in states' :: id in states && states'[id].started == states[id].started && states'[id].canceled == states[id].canceled
  }

  lemma FlagsKept(s: State, states: map<TaskId, TaskState>)
    requires Canceling(s) && SameFlags(s.states, states)
    requires forall id | id in states && states[id].done ::
      (s.states[id].done && states[id].succeeded == s.states[id].succeeded) || (states[id].succeeded <==> Succeeded(s.h, id))
    ensures CancelInv(s.tasks, s.workers, states, s.nextId, s.h, s.lastTicket)
  {
    hide Distinct;
  }

  lemma HistoryKept(s: State, h: History)
    requires Canceling(s) && h.log == s.h.log && h.canceledOk == s.h.canceledOk && h.ticketOf == s.h.ticketOf && h.threw == s.h.threw
    requires forall id | id in h.finished :: id in s.h.finished || Settled(s.h, id)
    ensures CancelInv(s.tasks, s.workers, s.states, s.nextId, h, s.lastTicket)
  {
    hide Distinct;
  }

  lemma CancelMark(s: State, w: Worker)
    requires Canceling(s) && Link(s) && w in s.workers && s.workers[w].Marking? && s.workers[w].e.id in s.states
    ensures Canceling(MarkTaskDone(s, w, s.workers[w]))
  {
    hide Distinct, FlagInv, Kept, Dropped, CancelInv;
    var s' := MarkTaskDone(s, w, s.workers[w]);
    var a := s.(states := s'.states);
    MarkOutcome(s, w);
    FlagsKept(s, s'.states);
    var b := a.(h := s'.h);
    MarkSettles(s, w);
    HistoryKept(a, s'.h);
    CancelGoesOn(b, s'.workers, w);
  }

  lemma MarkOutcome(s: State, w: Worker)
    requires Canceling(s) && Link(s) && w in s.workers && s.workers[w].Marking?
    ensures s.workers[w].executed && !s.workers[w].failed <==> Succeeded(s.h, s.workers[w].e.id)
  {
    hide Distinct, FlagInv, TableInv, PendingInv;
    assert PhaseOk(s.workers[w], s.states, s.h) && EntryOk(s.workers[w].e, s.h.ticketOf);
  }

  lemma MarkSettles(s: State, w: Worker)
    requires Canceling(s) && Link(s) && w in s.workers && s.workers[w].Marking?
    ensures Settled(s.h, s.workers[w].e.id)
  {
    hide Distinct, FlagInv, TableInv, PendingInv;
    assert PhaseOk(s.workers[w], s.states, s.h) && EntryOk(s.workers[w].e, s.h.ticketOf);
  }

  // The test finds the task canceled.
  lemma CancelSkips(s: State, w: Worker, e: Entry)
    requires Canceling(s) && Link(s) && Sched(s) && Ids(s) && w in s.workers && s.workers[w] == Checking(e)
    requires e.id in s.states && s.states[e.id].canceled
    ensures Canceling(Check(s, w, e))
  {
    hide IdInv, LinkInv, FlagInv, Distinct, SchedInv, PhaseOk;
    var s' := Check(s, w, e);
    SkipFlags(s, w, e);
    forall f | f in s.tasks ensures Untested(f, s'.states, s.h) { SkipTask(s, w, e, f); }
    forall v | v in s.workers && v != w ensures PhaseOk(s.workers[v], s'.states, s.h) { SkipWorker(s, w, e, v); }
    SkipPhase(s, e);
  }

  lemma SkipFlags(s: State, w: Worker, e: Entry)
    requires Canceling(s) && Link(s) && Ids(s) && w in s.workers && s.workers[w] == Checking(e) && e.id in s.states
    ensures FlagInv(s.states[e.id := s.states[e.id].(started := true)], s.nextId, s.h)
  {
    hide IdInv, LinkInv, Distinct, PhaseOk;
    TicketOwner(s, w, e);
  }

  lemma SkipPhase(s: State, e: Entry)
    requires Canceling(s) && e.id in s.states && s.states[e.id].canceled
    ensures PhaseOk(Marking(e, false, false, true), s.states[e.id := s.states[e.id].(started := true)], s.h)
  {
    hide Distinct;
  }

  lemma SkipTask(s: State, w: Worker, e: Entry, f: Entry)
    requires Canceling(s) && Link(s) && Sched(s) && Ids(s) && w in s.workers && s.workers[w] == Checking(e) && e.id in s.states && f in s.tasks
    ensures Untested(f, s.states[e.id := s.states[e.id].(started := true)], s.h)
  {
    hide IdInv, LinkInv, FlagInv, Distinct, SchedInv, PhaseOk;
    ZeroIsNoId(s);
    TasksDiffer(s, w, f);
    assert Untested(f, s.states, s.h);
  }

  lemma SkipWorker(s: State, w: Worker, e: Entry, v: Worker)
    requires Canceling(s) && Link(s) && Sched(s) && Ids(s) && w in s.workers && s.workers[w] == Checking(e) && e.id in s.states
    requires v in s.workers && v != w
    ensures PhaseOk(s.workers[v], s.states[e.id := s.states[e.id].(started := true)], s.h)
  {
    hide IdInv, LinkInv, FlagInv, Distinct, SchedInv;
    ZeroIsNoId(s);
    if Busy(s.workers[v]) { WorkersDiffer(s, w, v); }
    assert PhaseOk(s.workers[v], s.states, s.h);
  }

  // A cancellation is accepted only before the test, so no body that ran is affected.
  lemma CancelCancel(s: State, id: TaskId)
    requires Canceling(s) && Link(s) && Ids(s) && Cancelable(s, id)
    ensures Canceling(Cancel(s, id))
  {
    hide LinkInv, Distinct, PhaseOk, IdInv;
    var s' := Cancel(s, id);
    IdsBounded(s, id);
    forall w | w in s.workers ensures PhaseOk(s.workers[w], s'.states, s'.h) { CancelWorker(s, id, w); }
  }

  lemma IdsBounded(s: State, id: TaskId)
    requires Ids(s) && id in s.states
    ensures 0 < id < s.nextId
  {
    KeptFacts(s.h.finished);
  }

  lemma CancelWorker(s: State, id: TaskId, w: Worker)
    requires Canceling(s) && Link(s) && Ids(s) && Cancelable(s, id) && w in s.workers
    ensures PhaseOk(s.workers[w], Cancel(s, id).states, Cancel(s, id).h)
  {
    hide FlagInv, Distinct, TableInv, EntryOk;
    assert PhaseOk(s.workers[w], s.states, s.h);
    PendingKnown(s, w);
  }

  // An unmarked task's state is remembered.
  lemma PendingKnown(s: State, w: Worker)
    requires Link(s) && Ids(s) && w in s.workers
    ensures Unmarked(s.workers[w]) && s.workers[w].e.id != 0 ==> s.workers[w].e.id in s.states
  {
  }

  // ---------------------------------------------------------------------------------------
  // A body throws

  // The body of w's task throws, and w goes on to phase p.
  lemma CancelThrows(s: State, w: Worker, e: Entry, p: Phase)
    requires Canceling(s) && Link(s) && Sched(s) && Ids(s) && w in s.workers && s.workers[w] == Running(e)
    requires p == Releasing(e, false) || p == Leaving(e)
    ensures CancelInv(s.tasks, s.workers[w := p], s.states, s.nextId, s.h.(threw := s.h.threw + {e.ticket}), s.lastTicket)
  {
    hide Distinct, LinkInv, IdInv, SchedInv, FlagInv, PhaseOk;
    var h := s.h.(threw := s.h.threw + {e.ticket});
    ThrowFlags(s, w, e);
    forall f | f in s.tasks ensures Untested(f, s.states, h) { assert Untested(f, s.states, s.h); }
    forall v | v in s.workers && v != w ensures PhaseOk(s.workers[v], s.states, h) { ThrowWorker(s, w, e, v); }
    ThrowPhase(s, w, e, p);
  }

  lemma ThrowPhase(s: State, w: Worker, e: Entry, p: Phase)
    requires Canceling(s) && w in s.workers && s.workers[w] == Running(e) && (p == Releasing(e, false) || p == Leaving(e))
    ensures PhaseOk(p, s.states, s.h.(threw := s.h.threw + {e.ticket}))
  {
    hide Distinct, FlagInv;
    assert PhaseOk(s.workers[w], s.states, s.h);
  }

  lemma ThrowFlags(s: State, w: Worker, e: Entry)
    requires Canceling(s) && Link(s) && Ids(s) && w in s.workers && s.workers[w] == Running(e)
    ensures FlagInv(s.states, s.nextId, s.h.(threw := s.h.threw + {e.ticket}))
  {
    hide Distinct, LinkInv, IdInv, Untested;
    assert PhaseOk(s.workers[w], s.states, s.h);
    TicketOwner(s, w, e);
    UnmarkedNotDone(s, w);
  }

  lemma UnmarkedNotDone(s: State, w: Worker)
    requires Link(s) && Ids(s) && w in s.workers && Unmarked(s.workers[w])
    ensures s.workers[w].e.id in s.states ==> !s.states[s.workers[w].e.id].done
  {
    hide Distinct, TableInv, EntryInv;
    KeptFacts(s.h.finished);
    ZeroIsNoId(s);
  }

  lemma ThrowWorker(s: State, w: Worker, e: Entry, v: Worker)
    requires Canceling(s) && Sched(s) && w in s.workers && s.workers[w] == Running(e) && v in s.workers && v != w
    ensures PhaseOk(s.workers[v], s.states, s.h.(threw := s.h.threw + {e.ticket}))
  {
    hide Distinct, FlagInv, BusyWorkers;
    assert PhaseOk(s.workers[v], s.states, s.h);
  }
}
