/**
 The thread-pool executor itself: each method is one critical section, or the part of a worker
 between two of them, and carries out one step of the model.
 */
module ThreadPool {
  import opened Sums
  import opened ExecutorModel
  import opened ExecutorSteps
  import opened ExecutorLinks
  import opened ExecutorCounts
  import opened ExecutorRuns

  datatype Status = Ok | NotFound | WouldBlock | Stopping

  function Score(p: Priority): int {
    match p
    case High => 2
    case Normal => 1
    case Low => 0
  }

  // b goes before a, or is a: High before Normal before Low, and the older of equals.
  predicate NotBefore(a: Entry, b: Entry) {
    && (a.priority.High? ==> b.priority.High?)
    && (a.priority.Normal? ==> !b.priority.Low?)
    && (a.priority == b.priority ==> b.ticket <= a.ticket)
  }

  // A worker in this phase holds the mutex of the key.
  predicate HoldsKey(p: Phase, key: nat) {
    Holds(p) && p.e.key == key
  }

  ghost predicate AllDone(sts: map<TaskId, TaskState>, ids: seq<TaskId>) {
    forall id | id in ids && id in sts :: sts[id].done
  }

  class ThreadPoolExecutor {
    var tasks: seq<Entry>
    var workers: map<Worker, Phase>
    var activeWorkers: nat
    var pendingTasks: nat
    var enqueueSeq: nat
    var states: map<TaskId, TaskState>
    var pendingIds: set<TaskId>
    var doneIds: seq<TaskId>
    var nextTaskId: TaskId
    var calls: map<TaskId, Call>
    var serialKeys: map<nat, Worker>
    var stats: Stats
    var queueCapacity: nat
    var policy: Policy
    var stopping: bool
    ghost var history: History

    ghost function Abs(): State
      reads this
    {
      State(tasks, workers, activeWorkers, pendingTasks, enqueueSeq, states, pendingIds, doneIds, nextTaskId, calls,
            serialKeys, stats, history)
    }

    ghost predicate Valid()
      reads this
    {
      Inv(Abs())
    }

    constructor (workerIds: set<Worker>, capacity: nat, p: Policy)
      ensures Valid() && Abs() == Init(workerIds) && queueCapacity == capacity && policy == p && !stopping
    {
      hide Inv;
      tasks, workers, activeWorkers, pendingTasks, enqueueSeq := [], map w | w in workerIds :: Idle, 0, 0, 0;
      states, pendingIds, doneIds, nextTaskId, calls, serialKeys := map[], {}, [], 1, map[], map[];
      stats, queueCapacity, policy, stopping := Stats(0, 0, 0, 0, 0), capacity, p, false;
      history := History(map[], [], {}, {}, [], {});
      new;
      InitInv(workerIds);
    }

    // ---- Submission -----------------------------------------------------------------------

    // The first critical section of SubmitEx.
    method RegisterTask(key: nat, priority: Priority) returns (id: TaskId)
      requires Valid()
      modifies this`nextTaskId, this`states, this`pendingIds, this`calls
      ensures Valid() && id == old(nextTaskId) && id !in old(states)
      ensures Abs() == Register(old(Abs()), key, priority) == Step(old(Abs()), Registers(key, priority))
      ensures id !in history.ticketOf && Cancelable(Abs(), id)
      ensures forall other | other in old(states) :: other in states && states[other] == old(states)[other]
    {
      hide Inv;
      RegisterInv(Abs(), key, priority);
      NewIdIsNew(Abs());
      id := nextTaskId;
      nextTaskId := nextTaskId + 1;
      states := states[id := TaskState(false, false, false, false)];
      pendingIds := pendingIds + {id};
      calls := calls[id := Entering(key, priority)];
    }

    // Enqueue, for a registered id or, with id 0, for Submit.
    method Enqueue(id: TaskId, key: nat, priority: Priority) returns (st: Status)
      requires Valid() && (id == 0 ==> key == 0) && (id != 0 ==> id in calls && calls[id] == Entering(key, priority))
      modifies this`enqueueSeq, this`tasks, this`pendingTasks, this`stats, this`calls, this`history
      ensures Valid()
      ensures st == if stopping then Stopping else if queueCapacity > 0 && |old(tasks)| >= queueCapacity then WouldBlock else Ok
      ensures st == Ok ==> Abs() == Accept(old(Abs()), id, key, priority)
      ensures st != Ok ==> Abs() == Refuse(old(Abs()), id, st == WouldBlock)
      ensures Abs() == Step(old(Abs()), if st != Ok then IsRefused(id, st == WouldBlock) else if id == 0 then SubmitsPlain(priority) else Enqueues(id))
      ensures queueCapacity > 0 && |old(tasks)| <= queueCapacity ==> |tasks| <= queueCapacity
    {
      hide Inv;
      if stopping {
        RefuseTask(id, false);
        return Stopping;
      }
      if queueCapacity > 0 && |tasks| >= queueCapacity {
        RefuseTask(id, true);
        return WouldBlock;
      }
      AcceptTask(id, key, priority);
      return Ok;
    }

    method RefuseTask(id: TaskId, full: bool)
      requires Valid()
      modifies this`stats, this`calls
      ensures Valid() && Abs() == Refuse(old(Abs()), id, full)
    {
      hide Inv;
      RefuseInv(Abs(), id, full);
      if full { stats := stats.(rejected := stats.rejected + 1); }
      if id in calls { calls := calls[id := Refused]; }
    }

    method Append(entry: Entry)
      modifies this`enqueueSeq, this`tasks, this`pendingTasks
      ensures enqueueSeq == old(enqueueSeq) + 1 && tasks == old(tasks) + [entry] && pendingTasks == old(pendingTasks) + 1
    {
      enqueueSeq := enqueueSeq + 1;
      tasks := tasks + [entry];
      pendingTasks := pendingTasks + 1;
    }

    method AcceptTask(id: TaskId, key: nat, priority: Priority)
      requires Valid() && (id == 0 || id in calls) && (id == 0 ==> key == 0)
      modifies this`enqueueSeq, this`tasks, this`pendingTasks, this`stats, this`calls, this`history
      ensures Valid() && Abs() == Accept(old(Abs()), id, key, priority)
    {
      hide Inv;
      AcceptInv(Abs(), id, key, priority);
      var entry := Entry(id, key, priority, enqueueSeq + 1);
      history := Accept(Abs(), id, key, priority).h;
      Append(entry);
      stats, calls := stats.(submitted := stats.submitted + 1), calls - {id};
    }

    // The last critical section of SubmitEx, when Enqueue refused.
    method WithdrawTask(id: TaskId)
      requires Valid() && id in calls && calls[id].Refused?
      modifies this`states, this`pendingIds, this`calls
      ensures Valid() && Abs() == Withdraw(old(Abs()), id) == Step(old(Abs()), Withdraws(id)) && id !in states && id !in pendingIds
      ensures id !in history.ticketOf && !Cancelable(Abs(), id)
      ensures forall other | other in old(states) && other != id :: other in states && states[other] == old(states)[other]
    {
      hide Inv;
      NoTicketYet(Abs(), id);
      WithdrawInv(Abs(), id);
      states := states - {id};
      pendingIds := pendingIds - {id};
      calls := calls - {id};
    }

    // ---- Workers --------------------------------------------------------------------------

    // The first task under Fifo and Fair; otherwise the oldest among those of the highest priority.
    method PickNextTaskIndex() returns (best: nat)
      requires Valid()
      ensures tasks != [] ==> best < |tasks|
      ensures tasks == [] || policy == Fifo || policy == Fair ==> best == 0
      ensures tasks != [] && policy in {ByPriority, Hybrid} ==>
        forall i | 0 <= i < |tasks| :: NotBefore(tasks[i], tasks[best])
    {
      hide Inv;
      best := 0;
      if tasks == [] || policy == Fifo || policy == Fair { return; }
      var bestScore, bestSeq := Score(tasks[0].priority), tasks[0].ticket;
      for i := 1 to |tasks|
        invariant best < i && bestScore == Score(tasks[best].priority) && bestSeq == tasks[best].ticket
        invariant forall k | 0 <= k < i :: NotBefore(tasks[k], tasks[best])
      {
        var s := Score(tasks[i].priority);
        if s > bestScore || (s == bestScore && tasks[i].ticket < bestSeq) {
          best, bestScore, bestSeq := i, s, tasks[i].ticket;
        }
      }
    }

    method TakeTask(w: Worker) returns (i: nat)
      requires Valid() && w in workers && workers[w] == Idle && tasks != []
      modifies this`workers, this`tasks, this`activeWorkers
      ensures Valid() && i < |old(tasks)| && Abs() == Take(old(Abs()), w, i) == Step(old(Abs()), Takes(w, i))
      ensures policy in {Fifo, Fair} ==> i == 0
      ensures policy in {ByPriority, Hybrid} ==>
        forall k | 0 <= k < |old(tasks)| :: NotBefore(old(tasks)[k], old(tasks)[i])
    {
      hide Inv;
      i := PickNextTaskIndex();
      TakeInv(Abs(), w, i);
      workers := workers[w := Taken(tasks[i])];
      tasks := tasks[..i] + tasks[i + 1..];
      activeWorkers := activeWorkers + 1;
    }

    // Locks the key of the task, if it has one; enabled only when the mutex is free.
    method AcquireKey(w: Worker)
      requires Valid() && w in workers && workers[w].Taken? && workers[w].e.key !in serialKeys
      modifies this`history, this`workers, this`serialKeys
      ensures Valid() && Abs() == Acquire(old(Abs()), w, old(workers)[w].e) == Step(old(Abs()), Acquires(w))
      ensures old(workers)[w].e.key != 0 ==> forall v | v in workers && v != w :: !HoldsKey(workers[v], old(workers)[w].e.key)
    {
      hide Inv;
      var e := workers[w].e;
      AcquireInv(Abs(), w);
      if e.key != 0 { FreeKey(Abs(), e.key); }
      if e.id == 0 {
        history := history.(log := history.log + [e.ticket]);
        workers := workers[w := Running(e)];
      } else {
        if e.key != 0 { serialKeys := serialKeys[e.key := w]; }
        workers := workers[w := Checking(e)];
      }
    }

    method CheckCanceled(w: Worker) returns (canceled: bool)
      requires Valid() && w in workers && workers[w].Checking?
      modifies this`states, this`workers, this`history
      ensures Valid() && old(workers)[w].e.id in old(states) && canceled == old(states)[old(workers)[w].e.id].canceled
      ensures Abs() == Check(old(Abs()), w, old(workers)[w].e) == Step(old(Abs()), Checks(w))
      ensures canceled <==> old(workers)[w].e.id in history.canceledOk
    {
      hide Inv;
      var e := workers[w].e;
      PlainFacts(Abs(), w);
      CheckInv(Abs(), w);
      CanceledFlag(Abs(), e.id);
      canceled := states[e.id].canceled;
      states := states[e.id := states[e.id].(started := true)];
      if canceled {
        workers := workers[w := Marking(e, false, false, true)];
      } else {
        history := history.(log := history.log + [e.ticket]);
        workers := workers[w := Running(e)];
      }
    }

    method FinishBody(w: Worker, throws: bool)
      requires Valid() && w in workers && workers[w].Running?
      modifies this`history, this`stats, this`workers
      ensures Valid() && Abs() == EndBody(old(Abs()), w, old(workers)[w].e, throws) == Step(old(Abs()), BodyEnds(w, throws))
      ensures old(workers)[w].e.ticket in history.threw <==> throws
      ensures stats.completed == old(stats.completed) + if old(workers)[w].e.id == 0 && !throws then 1 else 0
      ensures stats.failed == old(stats.failed) + if old(workers)[w].e.id == 0 && throws then 1 else 0
      ensures old(workers)[w].e.id != 0 ==> old(workers)[w].e.id in pendingIds
    {
      hide Inv;
      var e := workers[w].e;
      PlainFacts(Abs(), w);
      EndBodyInv(Abs(), w, throws);
      history := EndBody(Abs(), w, e, throws).h;
      if e.id == 0 {
        stats := Count(stats, throws);
        workers := workers[w := Leaving(e)];
      } else {
        workers := workers[w := if throws then Releasing(e, false) else Marking(e, true, false, true)];
      }
    }

    // Forgets the oldest finished tasks beyond the limit.
    method Evict(sts: map<TaskId, TaskState>, all: seq<TaskId>) returns (sts': map<TaskId, TaskState>, done: seq<TaskId>)
      requires AllDone(sts, all)
      ensures done == Kept(all) && sts' == sts - Dropped(all)
    {
      sts', done := sts, all;
      ghost var k := 0;
      assert all[..0] == [] && all[0..] == all;
      while |done| > RETAINED
        invariant 0 <= k <= |all| && done == all[k..] && sts' == sts - Elements(all[..k])
        invariant k == 0 || |all| - k >= RETAINED
      {
        var oldest := done[0];
        assert oldest == all[k] && all[k..][1..] == all[k + 1..] && all[..k + 1] == all[..k] + [all[k]];
        assert Elements(all[..k + 1]) == Elements(all[..k]) + {oldest};
        done := done[1..];
        if oldest in sts' && sts'[oldest].done { sts' := sts' - {oldest}; }
        k := k + 1;
      }
    }

    // The id moves from pending_ids_ to done_ids_.
    method Remember(id: TaskId, st: TaskState)
      requires AllDone(states[id := st], doneIds + [id])
      modifies this`states, this`pendingIds, this`doneIds
      ensures states == old(states)[id := st] - Dropped(old(doneIds) + [id])
      ensures pendingIds == old(pendingIds) - {id} && doneIds == Kept(old(doneIds) + [id])
    {
      hide Kept, Dropped, AllDone;
      pendingIds := pendingIds - {id};
      var sts, done := Evict(states[id := st], doneIds + [id]);
      states, doneIds := sts, done;
    }

    method MarkDone(w: Worker)
      requires Valid() && w in workers && workers[w].Marking?
      modifies this`states, this`pendingIds, this`doneIds, this`stats, this`workers, this`history
      ensures Valid() && old(workers)[w].e.id in old(states)
      ensures Abs() == MarkTaskDone(old(Abs()), w, old(workers)[w]) == Step(old(Abs()), Marks(w))
      ensures var p := old(workers)[w];
        && stats.completed == old(stats.completed) + (if p.executed then 1 else 0)
        && stats.failed == old(stats.failed) + (if p.failed then 1 else 0)
        && (p.executed <==> Succeeded(history, p.e.id))
    {
      hide Inv, Kept, Dropped, Elements, AllDone;
      var p := workers[w];
      var id := p.e.id;
      MarkReady(Abs(), w, TaskState(true, true, true, true));
      MarkCounts(Abs(), w);
      MarkInv(Abs(), w);
      ghost var next := MarkTaskDone(Abs(), w, p);
      var st := states[id];
      MarkReady(Abs(), w, st.(done := true, succeeded := p.executed && !p.failed));
      var counts := !st.canceled && (p.failed || p.executed);
      Remember(id, st.(done := true, succeeded := p.executed && !p.failed));
      stats := if counts then Count(stats, p.failed) else stats;
      workers := workers[w := if p.holds then Releasing(p.e, true) else Leaving(p.e)];
      history := next.h;
    }

    method ReleaseKey(w: Worker)
      requires Valid() && w in workers && workers[w].Releasing?
      modifies this`serialKeys, this`workers
      ensures Valid() && Abs() == Release(old(Abs()), w, old(workers)[w]) == Step(old(Abs()), Releases(w))
      ensures old(workers)[w].e.key != 0 ==> forall v | v in workers :: !HoldsKey(workers[v], old(workers)[w].e.key)
    {
      hide Inv;
      var p := workers[w];
      ReleaseInv(Abs(), w);
      if p.e.key != 0 { FreeKey(Release(Abs(), w, p), p.e.key); }
      if p.e.key != 0 { serialKeys := serialKeys - {p.e.key}; }
      workers := workers[w := if p.marked then Leaving(p.e) else Marking(p.e, false, true, false)];
    }

    // Neither counter is zero here, so the guard on pending_tasks_ never fails.
    method LeaveTask(w: Worker)
      requires Valid() && w in workers && workers[w].Leaving?
      modifies this`workers, this`activeWorkers, this`pendingTasks
      ensures Valid() && old(activeWorkers) > 0 && old(pendingTasks) > 0 && Abs() == Leave(old(Abs()), w) == Step(old(Abs()), Leaves(w))
    {
      hide Inv;
      LeaveInv(Abs(), w);
      workers := workers[w := Idle];
      activeWorkers := activeWorkers - 1;
      if pendingTasks > 0 { pendingTasks := pendingTasks - 1; }
    }

    // ---- Cancellation and waiting ---------------------------------------------------------

    method TryCancel(id: TaskId) returns (st: Status)
      requires Valid()
      modifies this`states, this`stats, this`history
      ensures Valid()
      ensures st == if id !in old(states) then NotFound else if Cancelable(old(Abs()), id) then Ok else WouldBlock
      ensures st != Ok ==> Abs() == old(Abs())
      ensures st == Ok ==> Cancelable(old(Abs()), id) && Abs() == Cancel(old(Abs()), id) && id in history.canceledOk
      ensures Abs() == Step(old(Abs()), Cancels(id))
    {
      hide Inv;
      if id !in states { return NotFound; }
      if states[id].started || states[id].done { return WouldBlock; }
      CancelingInv(Abs(), id);
      states := states[id := states[id].(canceled := true)];
      stats := stats.(canceled := stats.canceled + 1);
      history := history.(canceledOk := history.canceledOk + {id});
      return Ok;
    }
  }

  // A key that no mutex entry names is held by nobody.
  lemma FreeKey(s: State, key: nat)
    requires Inv(s) && key != 0 && key !in s.holders
    ensures forall v | v in s.workers :: !HoldsKey(s.workers[v], key)
  {
    hide SchedInv, IdInv, LinkInv, CancelInv, CountInv;
  }

  lemma NoTicketYet(s: State, id: TaskId)
    requires Inv(s) && id in s.calls
    ensures id !in s.h.ticketOf
  {
    hide SchedInv, IdInv, EntryInv, PendingInv, CancelInv, CountInv, KeyInv;
  }

  lemma NewIdIsNew(s: State)
    requires Inv(s)
    ensures s.nextId !in s.states && s.nextId !in s.h.ticketOf
  {
    hide SchedInv, EntryInv, PendingInv, CancelInv, CountInv, KeyInv;
    IdRegister(s.states, s.pendingIds, s.doneIds, s.nextId, s.h.finished);
  }

  // A canceled task was neither executed nor failed, and no task was both.
  lemma MarkCounts(s: State, w: Worker)
    requires Inv(s) && w in s.workers && s.workers[w].Marking? && s.workers[w].e.id in s.states
    ensures var p := s.workers[w];
      && (s.states[p.e.id].canceled <==> !p.executed && !p.failed) && !(p.executed && p.failed)
      && (p.executed <==> Succeeded(s.h, p.e.id))
  {
    hide SchedInv, KeyInv, IdInv, LinkInv, CountInv, CancelInv;
    PlainFacts(s, w);
    CanceledFlag(s, s.workers[w].e.id);
    MarkOutcome(s, w);
  }

  lemma MarkReady(s: State, w: Worker, st: TaskState)
    requires Inv(s) && w in s.workers && s.workers[w].Marking? && st.done
    ensures s.workers[w].e.id in s.states
    ensures AllDone(s.states[s.workers[w].e.id := st], s.doneIds + [s.workers[w].e.id])
  {
    hide SchedInv, KeyInv, LinkInv, CancelInv, CountInv, Kept, Distinct, PhaseOk;
    PlainFacts(s, w);
  }
}
