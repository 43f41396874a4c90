/**
 The thread-pool executor as a state machine: every critical section is one step, and workers,
 submitting calls, cancellations and waits interleave freely.
 */
module ExecutorModel {
  import opened Sums

  type TaskId = nat
  type Worker = nat

  const RETAINED: nat := 65536            // max_retained_states_

  datatype Priority = Low | Normal | High
  datatype Policy = Fifo | Fair | ByPriority | Hybrid

  // A queued task; id is 0 for one from Submit, key is 0 when it has no serial key.
  datatype Entry = Entry(id: TaskId, key: nat, priority: Priority, ticket: nat)

  datatype TaskState = TaskState(started: bool, done: bool, canceled: bool, succeeded: bool)

  // Where a worker is. The key mutex of e.key is held from Checking to Releasing, except when
  // the body threw: the mutex is then released before the task is marked.
  datatype Phase =
    | Idle
    | Taken(e: Entry)                                               // off the queue
    | Checking(e: Entry)                                            // about to test `canceled`
    | Running(e: Entry)                                             // inside the body
    | Marking(e: Entry, executed: bool, failed: bool, holds: bool)  // about to call MarkTaskDone
    | Releasing(e: Entry, marked: bool)                             // about to unlock the key
    | Leaving(e: Entry)                                             // about to leave the loop body

  // A call of SubmitEx that registered its id and has not returned.
  datatype Call = Entering(key: nat, priority: Priority) | Refused

  datatype Stats = Stats(submitted: nat, completed: nat, failed: nat, canceled: nat, rejected: nat)

  // What happened, for the statements below: the ticket (enqueue_seq_) of each accepted id, the
  // tickets whose bodies started, the ids some TryCancel accepted, the tickets counted as
  // completed or failed, the ids in the order they were marked, and the tickets whose bodies threw.
  datatype History = History(
    ticketOf: map<TaskId, nat>,
    log: seq<nat>,
    canceledOk: set<TaskId>,
    counted: set<nat>,
    finished: seq<TaskId>,
    threw: set<nat>)

  datatype State = State(
    tasks: seq<Entry>,
    workers: map<Worker, Phase>,
    active: nat,
    pending: nat,
    lastTicket: nat,
    states: map<TaskId, TaskState>,
    pendingIds: set<TaskId>,
    doneIds: seq<TaskId>,
    nextId: TaskId,
    calls: map<TaskId, Call>,
    holders: map<nat, Worker>,
    stats: Stats,
    h: History)

  function Init(workers: set<Worker>): State {
    State([], map w | w in workers :: Idle, 0, 0, 0, map[], {}, [], 1, map[], map[],
          Stats(0, 0, 0, 0, 0), History(map[], [], {}, {}, [], {}))
  }

  // ---------------------------------------------------------------------------------------
  // Submission

  function Register(s: State, key: nat, priority: Priority): State {
    s.(states := s.states[s.nextId := TaskState(false, false, false, false)],
       pendingIds := s.pendingIds + {s.nextId},
       nextId := s.nextId + 1,
       calls := s.calls[s.nextId := Entering(key, priority)])
  }

  // A task joins the queue.
  function Accept(s: State, id: TaskId, key: nat, priority: Priority): State {
    s.(tasks := s.tasks + [Entry(id, key, priority, s.lastTicket + 1)],
       lastTicket := s.lastTicket + 1,
       pending := s.pending + 1,
       stats := s.stats.(submitted := s.stats.submitted + 1),
       calls := s.calls - {id},
       h := s.h.(ticketOf := if id == 0 then s.h.ticketOf else s.h.ticketOf[id := s.lastTicket + 1]))
  }

  // The queue does not take the task: it is full, or the executor stops.
  function Refuse(s: State, id: TaskId, full: bool): State {
    s.(stats := s.stats.(rejected := s.stats.rejected + if full then 1 else 0),
       calls := if id in s.calls then s.calls[id := Refused] else s.calls)
  }

  function Withdraw(s: State, id: TaskId): State {
    s.(states := s.states - {id}, pendingIds := s.pendingIds - {id}, calls := s.calls - {id})
  }

  // ---------------------------------------------------------------------------------------
  // Workers

  function Take(s: State, w: Worker, i: nat): State
    requires i < |s.tasks|
  {
    s.(tasks := s.tasks[..i] + s.tasks[i + 1..],
       workers := s.workers[w := Taken(s.tasks[i])],
       active := s.active + 1)
  }

  // The key mutex is taken; a task from Submit has neither key nor state and starts at once.
  function Acquire(s: State, w: Worker, e: Entry): State {
    if e.id == 0 then
      s.(workers := s.workers[w := Running(e)], h := s.h.(log := s.h.log + [e.ticket]))
    else
      s.(workers := s.workers[w := Checking(e)], holders := if e.key == 0 then s.holders else s.holders[e.key := w])
  }

  function Check(s: State, w: Worker, e: Entry): State
    requires e.id in s.states
  {
    var st := s.states[e.id];
    var s1 := s.(states := s.states[e.id := st.(started := true)]);
    if st.canceled then s1.(workers := s.workers[w := Marking(e, false, false, true)])
    else s1.(workers := s.workers[w := Running(e)], h := s.h.(log := s.h.log + [e.ticket]))
  }

  function Count(stats: Stats, failed: bool): Stats {
    if failed then stats.(failed := stats.failed + 1) else stats.(completed := stats.completed + 1)
  }

  // The body returns or throws.
  function EndBody(s: State, w: Worker, e: Entry, throws: bool): State {
    var threw := if throws then s.h.threw + {e.ticket} else s.h.threw;
    if e.id == 0 then
      s.(workers := s.workers[w := Leaving(e)],
         stats := Count(s.stats, throws), h := s.h.(counted := s.h.counted + {e.ticket}, threw := threw))
    else
      s.(workers := s.workers[w := if throws then Releasing(e, false) else Marking(e, true, false, true)],
         h := s.h.(threw := threw))
  }

  // done_ids_ after one more finished task, and what is dropped from states_.
  function Kept(done: seq<TaskId>): seq<TaskId> {
    if |done| > RETAINED then done[|done| - RETAINED..] else done
  }

  function Dropped(done: seq<TaskId>): set<TaskId> {
    if |done| > RETAINED then Elements(done[..|done| - RETAINED]) else {}
  }

  function MarkTaskDone(s: State, w: Worker, p: Phase): State
    requires p.Marking? && p.e.id in s.states
  {
    var id, st := p.e.id, s.states[p.e.id];
    var done := s.doneIds + [id];
    var counts := !st.canceled && (p.failed || p.executed);
    s.(states := s.states[id := st.(done := true, succeeded := p.executed && !p.failed)] - Dropped(done),
       pendingIds := s.pendingIds - {id},
       doneIds := Kept(done),
       stats := if counts then Count(s.stats, p.failed) else s.stats,
       workers := s.workers[w := if p.holds then Releasing(p.e, true) else Leaving(p.e)],
       h := s.h.(finished := s.h.finished + [id], counted := if counts then s.h.counted + {p.e.ticket} else s.h.counted))
  }

  function Release(s: State, w: Worker, p: Phase): State
    requires p.Releasing?
  {
    s.(holders := if p.e.key == 0 then s.holders else s.holders - {p.e.key},
       workers := s.workers[w := if p.marked then Leaving(p.e) else Marking(p.e, false, true, false)])
  }

  function Leave(s: State, w: Worker): State {
    s.(workers := s.workers[w := Idle],
       active := if s.active > 0 then s.active - 1 else 0,
       pending := if s.pending > 0 then s.pending - 1 else 0)
  }

  // ---------------------------------------------------------------------------------------
  // Cancellation

  predicate Cancelable(s: State, id: TaskId) {
    id in s.states && !s.states[id].started && !s.states[id].done
  }

  function Cancel(s: State, id: TaskId): State
    requires Cancelable(s, id)
  {
    s.(states := s.states[id := s.states[id].(canceled := true)],
       stats := s.stats.(canceled := s.stats.canceled + 1),
       h := s.h.(canceledOk := s.h.canceledOk + {id}))
  }

  // ---------------------------------------------------------------------------------------
  // The invariant

  predicate Unmarked(p: Phase) {
    p.Taken? || p.Checking? || p.Running? || p.Marking? || (p.Releasing? && !p.marked)
  }

  predicate Holds(p: Phase) {
    p.Checking? || p.Running? || (p.Marking? && p.holds) || p.Releasing?
  }

  predicate Busy(p: Phase) {
    !p.Idle?
  }

  function BusyWorkers(ws: map<Worker, Phase>): set<Worker> {
    set w | w in ws && Busy(ws[w])
  }

  // The queue and the workers hold different tasks, all of them accepted.
  ghost predicate SchedInv(tasks: seq<Entry>, ws: map<Worker, Phase>, active: nat, pending: nat, last: nat) {
    && (forall i, j | 0 <= i < j < |tasks| :: tasks[i].ticket < tasks[j].ticket)
    && (forall e | e in tasks :: 0 < e.ticket <= last)
    && (forall w | w in ws && Busy(ws[w]) :: 0 < ws[w].e.ticket <= last)
    && (forall w, e | w in ws && Busy(ws[w]) && e in tasks :: ws[w].e.ticket != e.ticket)
    && (forall w, v | w in ws && v in ws && w != v && Busy(ws[w]) && Busy(ws[v]) :: ws[w].e.ticket != ws[v].e.ticket)
    && active == |BusyWorkers(ws)|
    && pending == |tasks| + active
  }

  ghost predicate KeyInv(ws: map<Worker, Phase>, holders: map<nat, Worker>) {
    && 0 !in holders
    && (forall w | w in ws && Holds(ws[w]) && ws[w].e.key != 0 ::
          ws[w].e.key in holders && holders[ws[w].e.key] == w)
    && (forall k | k in holders :: holders[k] in ws && Holds(ws[holders[k]]) && ws[holders[k]].e.key == k)
  }

  // states_ holds the unfinished ids and the youngest finished ones.
  ghost predicate IdInv(states: map<TaskId, TaskState>, pendingIds: set<TaskId>, done: seq<TaskId>, next: TaskId, finished: seq<TaskId>) {
    && next > 0
    && states.Keys == pendingIds + Elements(done)
    && (forall id | id in pendingIds :: 0 < id < next && id !in finished)
    && (forall id | id in finished :: 0 < id < next)
    && Distinct(finished) && done == Kept(finished)
    && (forall id | id in states :: states[id].done <==> id in done)
  }

  // Accepted ids have tickets of their own; an id whose call has not returned has none yet.
  ghost predicate TableInv(calls: map<TaskId, Call>, pendingIds: set<TaskId>, ticketOf: map<TaskId, nat>, finished: seq<TaskId>, last: nat) {
    && (forall id | id in calls :: id in pendingIds && id !in ticketOf)
    && (forall id | id in ticketOf :: id != 0 && (id in pendingIds || id in finished) && 0 < ticketOf[id] <= last)
    && (forall id, jd | id in ticketOf && jd in ticketOf && id != jd :: ticketOf[id] != ticketOf[jd])
  }

  ghost predicate EntryOk(e: Entry, ticketOf: map<TaskId, nat>) {
    if e.id == 0 then e.key == 0 && forall id | id in ticketOf :: ticketOf[id] != e.ticket
    else e.id in ticketOf && ticketOf[e.id] == e.ticket
  }

  predicate PlainPhase(p: Phase) {
    p.Taken? || p.Running? || p.Leaving?
  }

  ghost predicate EntryInv(tasks: seq<Entry>, ws: map<Worker, Phase>, ticketOf: map<TaskId, nat>) {
    && (forall e | e in tasks :: EntryOk(e, ticketOf))
    && (forall w | w in ws && Busy(ws[w]) :: EntryOk(ws[w].e, ticketOf) && (ws[w].e.id == 0 ==> PlainPhase(ws[w])))
  }

  ghost predicate PendingInv(tasks: seq<Entry>, ws: map<Worker, Phase>, pendingIds: set<TaskId>) {
    && (forall e | e in tasks && e.id != 0 :: e.id in pendingIds)
    && (forall w | w in ws && Unmarked(ws[w]) && ws[w].e.id != 0 :: ws[w].e.id in pendingIds)
  }

  // Which tasks the ids in pending_ids_ belong to.
  ghost predicate LinkInv(tasks: seq<Entry>, ws: map<Worker, Phase>, calls: map<TaskId, Call>, pendingIds: set<TaskId>,
                          ticketOf: map<TaskId, nat>, finished: seq<TaskId>, last: nat)
  {
    && TableInv(calls, pendingIds, ticketOf, finished, last)
    && EntryInv(tasks, ws, ticketOf)
    && PendingInv(tasks, ws, pendingIds)
  }

  // The flags of the remembered tasks against what happened.
  ghost predicate FlagInv(states: map<TaskId, TaskState>, next: TaskId, h: History) {
    && (forall id | id in states :: states[id].canceled <==> id in h.canceledOk)
    && (forall id | id in h.canceledOk :: 0 < id < next && (id in h.ticketOf ==> h.ticketOf[id] !in h.log))
    && (forall id | id in states && id in h.ticketOf && h.ticketOf[id] in h.log :: states[id].started)
    && (forall id | id in states && id !in h.ticketOf :: !states[id].started)
    && (forall id | id in h.finished :: Settled(h, id))
    && (forall n | n in h.threw :: n in h.log)
    && (forall id | id in states && states[id].done :: states[id].succeeded <==> Succeeded(h, id))
  }

  // An accepted id that was not canceled and whose body, if it ran, did not throw.
  ghost predicate Succeeded(h: History, id: TaskId) {
    id in h.ticketOf && id !in h.canceledOk && h.ticketOf[id] !in h.threw
  }

  // An accepted id whose body ran, or that was canceled.
  ghost predicate Settled(h: History, id: TaskId) {
    id in h.ticketOf && (id in h.canceledOk || h.ticketOf[id] in h.log)
  }

  ghost predicate Untested(e: Entry, states: map<TaskId, TaskState>, h: History) {
    e.ticket !in h.log && (e.id in states ==> !states[e.id].started)
  }

  ghost predicate PhaseOk(p: Phase, states: map<TaskId, TaskState>, h: History) {
    match p
    case Idle => true
    case Taken(e) => Untested(e, states, h)
    case Checking(e) => Untested(e, states, h)
    case Running(e) => e.ticket in h.log && e.ticket !in h.threw && e.id !in h.canceledOk && (e.id in states ==> states[e.id].started)
    case Marking(e, executed, failed, _) =>
      && (e.id in h.canceledOk <==> !executed && !failed) && (e.id in states ==> states[e.id].started)
      && (executed || failed ==> e.ticket in h.log) && !(executed && failed)
      && (executed ==> e.ticket !in h.threw) && (failed ==> e.ticket in h.threw)
    case Releasing(e, marked) =>
      !marked ==> e.ticket in h.log && e.ticket in h.threw && e.id !in h.canceledOk && (e.id in states ==> states[e.id].started)
    case Leaving(_) => true
  }

  // A body runs once at most, and never after its task was canceled.
  ghost predicate CancelInv(tasks: seq<Entry>, ws: map<Worker, Phase>, states: map<TaskId, TaskState>, next: TaskId, h: History, last: nat) {
    && Distinct(h.log) && (forall n | n in h.log :: n <= last)
    && FlagInv(states, next, h)
    && (forall e | e in tasks :: Untested(e, states, h))
    && (forall w | w in ws :: PhaseOk(ws[w], states, h))
  }

  // Not yet counted or given up.
  ghost predicate Outstanding(tasks: seq<Entry>, ws: map<Worker, Phase>, n: nat) {
    (exists e :: e in tasks && e.ticket == n) || (exists w :: w in ws && Unmarked(ws[w]) && ws[w].e.ticket == n)
  }

  ghost predicate CanceledTicket(h: History, n: nat) {
    exists id :: id in h.canceledOk && id in h.ticketOf && h.ticketOf[id] == n
  }

  ghost predicate CountInv(tasks: seq<Entry>, ws: map<Worker, Phase>, last: nat, stats: Stats, h: History) {
    && stats.submitted == last
    && stats.completed + stats.failed == |h.counted|
    && stats.canceled >= |h.canceledOk|
    && (forall n | n in h.counted :: 0 < n <= last && !Outstanding(tasks, ws, n) && !CanceledTicket(h, n))
    && (forall id | id in h.ticketOf && h.ticketOf[id] in h.counted :: id in h.finished)
    && (forall n | 0 < n <= last :: n in h.counted || Outstanding(tasks, ws, n) || CanceledTicket(h, n))
  }

  // completed counts the counted tasks whose bodies returned, failed those whose bodies threw.
  ghost predicate OutcomeInv(stats: Stats, h: History) {
    stats.completed == |h.counted - h.threw| && stats.failed == |h.counted * h.threw|
  }

  ghost predicate Inv(s: State) {
    && SchedInv(s.tasks, s.workers, s.active, s.pending, s.lastTicket)
    && KeyInv(s.workers, s.holders)
    && IdInv(s.states, s.pendingIds, s.doneIds, s.nextId, s.h.finished)
    && LinkInv(s.tasks, s.workers, s.calls, s.pendingIds, s.h.ticketOf, s.h.finished, s.lastTicket)
    && CancelInv(s.tasks, s.workers, s.states, s.nextId, s.h, s.lastTicket)
    && CountInv(s.tasks, s.workers, s.lastTicket, s.stats, s.h)
    && OutcomeInv(s.stats, s.h)
  }
}
