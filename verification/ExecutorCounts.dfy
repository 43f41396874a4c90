/**
 The executor's statistics.
 */
module ExecutorCounts {
  import opened Sums
  import opened ExecutorModel
  import opened ExecutorSteps
  import opened ExecutorLinks

  ghost predicate Counting(s: State) {
    CountInv(s.tasks, s.workers, s.lastTicket, s.stats, s.h)
  }

  lemma OutstandingWorker(tasks: seq<Entry>, ws: map<Worker, Phase>, w: Worker)
    requires w in ws && Unmarked(ws[w])
    ensures Outstanding(tasks, ws, ws[w].e.ticket)
  {
  }

  lemma OutstandingGoesOn(tasks: seq<Entry>, ws: map<Worker, Phase>, ws': map<Worker, Phase>, w: Worker, n: nat)
    requires GoesOn(ws, ws', w) && Unmarked(ws'[w]) == Unmarked(ws[w])
    ensures Outstanding(tasks, ws', n) <==> Outstanding(tasks, ws, n)
  {
    if v :| v in ws && Unmarked(ws[v]) && ws[v].e.ticket == n { assert Unmarked(ws'[v]) && ws'[v].e.ticket == n; }
    if v :| v in ws' && Unmarked(ws'[v]) && ws'[v].e.ticket == n { assert Unmarked(ws[v]) && ws[v].e.ticket == n; }
  }

  lemma CountGoesOn(s: State, ws: map<Worker, Phase>, w: Worker)
    requires Counting(s) && GoesOn(s.workers, ws, w) && Unmarked(ws[w]) == Unmarked(s.workers[w])
    ensures CountInv(s.tasks, ws, s.lastTicket, s.stats, s.h)
  {
    hide Outstanding, CanceledTicket, GoesOn;
    forall n ensures Outstanding(s.tasks, ws, n) <==> Outstanding(s.tasks, s.workers, n) {
      OutstandingGoesOn(s.tasks, s.workers, ws, w, n);
    }
  }

  lemma OutstandingAccept(tasks: seq<Entry>, ws: map<Worker, Phase>, e: Entry, n: nat)
    ensures Outstanding(tasks + [e], ws, n) <==> Outstanding(tasks, ws, n) || n == e.ticket
  {
    assert e in tasks + [e];
    if f :| f in tasks && f.ticket == n { assert f in tasks + [e]; }
  }

  lemma CanceledAccept(s: State, id: TaskId, key: nat, priority: Priority, n: nat)
    requires Link(s) && (id == 0 || id in s.calls) && n <= s.lastTicket
    ensures CanceledTicket(Accept(s, id, key, priority).h, n) <==> CanceledTicket(s.h, n)
  {
    hide EntryInv, PendingInv;
    var h := Accept(s, id, key, priority).h;
    if jd :| jd in s.h.canceledOk && jd in s.h.ticketOf && s.h.ticketOf[jd] == n { assert h.ticketOf[jd] == n; }
  }

  lemma CountAccept(s: State, id: TaskId, key: nat, priority: Priority)
    requires Counting(s) && Link(s) && (id == 0 || id in s.calls)
    ensures Counting(Accept(s, id, key, priority))
  {
    hide Outstanding, CanceledTicket, EntryInv, PendingInv;
    var s' := Accept(s, id, key, priority);
    forall n ensures Outstanding(s'.tasks, s'.workers, n) <==> Outstanding(s.tasks, s.workers, n) || n == s'.lastTicket {
      OutstandingAccept(s.tasks, s.workers, Entry(id, key, priority, s.lastTicket + 1), n);
    }
    forall n: nat | n <= s.lastTicket ensures CanceledTicket(s'.h, n) <==> CanceledTicket(s.h, n) {
      CanceledAccept(s, id, key, priority, n);
    }
  }

  lemma OutstandingTake(tasks: seq<Entry>, ws: map<Worker, Phase>, w: Worker, i: nat, n: nat)
    requires i < |tasks| && w in ws && ws[w] == Idle && forall j, k | 0 <= j < k < |tasks| :: tasks[j].ticket < tasks[k].ticket
    ensures Outstanding(tasks[..i] + tasks[i + 1..], ws[w := Taken(tasks[i])], n) <==> Outstanding(tasks, ws, n)
  {
    var rest, ws' := tasks[..i] + tasks[i + 1..], ws[w := Taken(tasks[i])];
    Removed(tasks, i);
    if e :| e in tasks && e.ticket == n { if e == tasks[i] { assert Unmarked(ws'[w]); } else { assert e in rest; } }
    if v :| v in ws && Unmarked(ws[v]) && ws[v].e.ticket == n { assert Unmarked(ws'[v]) && ws'[v].e.ticket == n; }
    if v :| v in ws' && Unmarked(ws'[v]) && ws'[v].e.ticket == n {
      if v == w { assert tasks[i] in tasks; } else { assert Unmarked(ws[v]); }
    }
  }

  lemma CountTake(s: State, w: Worker, i: nat)
    requires Counting(s) && Sched(s) && i < |s.tasks| && w in s.workers && s.workers[w] == Idle
    ensures Counting(Take(s, w, i))
  {
    hide Outstanding, CanceledTicket, BusyWorkers;
    var s' := Take(s, w, i);
    forall n ensures Outstanding(s'.tasks, s'.workers, n) <==> Outstanding(s.tasks, s.workers, n) {
      OutstandingTake(s.tasks, s.workers, w, i, n);
    }
  }

  lemma OutstandingLeave(tasks: seq<Entry>, ws: map<Worker, Phase>, w: Worker, n: nat)
    requires w in ws && !Unmarked(ws[w])
    ensures Outstanding(tasks, ws[w := Idle], n) <==> Outstanding(tasks, ws, n)
  {
    var ws' := ws[w := Idle];
    if v :| v in ws && Unmarked(ws[v]) && ws[v].e.ticket == n { assert Unmarked(ws'[v]) && ws'[v].e.ticket == n; }
    if v :| v in ws' && Unmarked(ws'[v]) && ws'[v].e.ticket == n { assert Unmarked(ws[v]) && ws[v].e.ticket == n; }
  }

  lemma CountLeave(s: State, w: Worker)
    requires Counting(s) && w in s.workers && !Unmarked(s.workers[w])
    ensures Counting(Leave(s, w))
  {
    hide Outstanding, CanceledTicket;
    forall n ensures Outstanding(s.tasks, s.workers[w := Idle], n) <==> Outstanding(s.tasks, s.workers, n) {
      OutstandingLeave(s.tasks, s.workers, w, n);
    }
  }

  // The task of w is settled: its ticket, and no other, stops being outstanding.
  lemma OutstandingSettles(s: State, ws: map<Worker, Phase>, w: Worker, n: nat)
    requires Sched(s) && GoesOn(s.workers, ws, w) && Unmarked(s.workers[w]) && !Unmarked(ws[w])
    ensures Outstanding(s.tasks, ws, n) <==> Outstanding(s.tasks, s.workers, n) && n != ws[w].e.ticket
  {
    hide BusyWorkers;
    if v :| v in s.workers && Unmarked(s.workers[v]) && s.workers[v].e.ticket == n && v != w { assert Unmarked(ws[v]) && ws[v].e.ticket == n; }
    if v :| v in ws && Unmarked(ws[v]) && ws[v].e.ticket == n { assert v != w && Unmarked(s.workers[v]) && s.workers[v].e.ticket == n; }
  }

  // Whether the ticket is one of a canceled task depends on the task's own id only.
  lemma TicketCanceled(s: State, w: Worker)
    requires Link(s) && Ids(s) && w in s.workers && Busy(s.workers[w])
    ensures CanceledTicket(s.h, s.workers[w].e.ticket) <==> s.workers[w].e.id != 0 && s.workers[w].e.id in s.h.canceledOk
  {
    hide TableInv, PendingInv, IdInv;
    TicketOwner(s, w, s.workers[w].e);
    assert EntryOk(s.workers[w].e, s.h.ticketOf);
  }

  lemma CountSettles(s: State, ws: map<Worker, Phase>, w: Worker, stats: Stats, h: History, counts: bool)
    requires Counting(s) && Sched(s) && Link(s) && Ids(s) && GoesOn(s.workers, ws, w) && Unmarked(s.workers[w]) && !Unmarked(ws[w])
    requires h.ticketOf == s.h.ticketOf && h.canceledOk == s.h.canceledOk && (forall id | id in s.h.finished :: id in h.finished)
    requires ws[w].e.id == 0 || ws[w].e.id in h.finished
    requires counts <==> !CanceledTicket(s.h, ws[w].e.ticket)
    requires h.counted == if counts then s.h.counted + {ws[w].e.ticket} else s.h.counted
    requires stats.submitted == s.stats.submitted && stats.canceled == s.stats.canceled
    requires stats.completed + stats.failed == s.stats.completed + s.stats.failed + if counts then 1 else 0
    ensures CountInv(s.tasks, ws, s.lastTicket, stats, h)
  {
    hide Outstanding, LinkInv, IdInv, SchedInv, CanceledTicket, CountInv;
    var t := ws[w].e.ticket;
    OutstandingWorker(s.tasks, s.workers, w);
    TicketOwner(s, w, ws[w].e);
    TicketInRange(s, w);
    forall n ensures Outstanding(s.tasks, ws, n) <==> Outstanding(s.tasks, s.workers, n) && n != t { OutstandingSettles(s, ws, w, n); }
    forall n ensures CanceledTicket(h, n) <==> CanceledTicket(s.h, n) { SameCanceled(s.h, h, n); }
    CountAfter(s, ws, stats, h, t, counts);
  }

  // The ticket t leaves the outstanding ones, and is counted or canceled.
  lemma CountAfter(s: State, ws: map<Worker, Phase>, stats: Stats, h: History, t: nat, counts: bool)
    requires Counting(s) && Outstanding(s.tasks, s.workers, t) && 0 < t <= s.lastTicket
    requires forall n :: Outstanding(s.tasks, ws, n) <==> Outstanding(s.tasks, s.workers, n) && n != t
    requires forall n :: CanceledTicket(h, n) <==> CanceledTicket(s.h, n)
    requires h.ticketOf == s.h.ticketOf && h.canceledOk == s.h.canceledOk && (forall id | id in s.h.finished :: id in h.finished)
    requires forall id | id in h.ticketOf && h.ticketOf[id] == t :: id in h.finished
    requires counts <==> !CanceledTicket(s.h, t)
    requires h.counted == if counts then s.h.counted + {t} else s.h.counted
    requires stats.submitted == s.stats.submitted && stats.canceled == s.stats.canceled
    requires stats.completed + stats.failed == s.stats.completed + s.stats.failed + if counts then 1 else 0
    ensures CountInv(s.tasks, ws, s.lastTicket, stats, h)
  {
    hide Outstanding, CanceledTicket;
  }

  // A body throws whose task is not counted yet.
  lemma OutcomeThrows(stats: Stats, h: History, t: nat)
    requires OutcomeInv(stats, h) && t !in h.counted
    ensures OutcomeInv(stats, h.(threw := h.threw + {t}))
  {
    assert h.counted - (h.threw + {t}) == h.counted - h.threw;
    assert h.counted * (h.threw + {t}) == h.counted * h.threw;
  }

  // One more task is counted, as failed exactly when its body threw.
  lemma OutcomeCounts(stats: Stats, h: History, t: nat)
    requires OutcomeInv(stats, h) && t !in h.counted
    ensures OutcomeInv(Count(stats, t in h.threw), h.(counted := h.counted + {t}))
  {
    OneMore(h.counted, h.threw, t);
  }

  lemma OneMore(c: set<nat>, x: set<nat>, t: nat)
    requires t !in c
    ensures |(c + {t}) - x| == |c - x| + (if t in x then 0 else 1)
    ensures |(c + {t}) * x| == |c * x| + (if t in x then 1 else 0)
  {
    if t in x {
      assert (c + {t}) - x == c - x;
      assert (c + {t}) * x == c * x + {t};
    } else {
      assert (c + {t}) - x == (c - x) + {t};
      assert (c + {t}) * x == c * x;
    }
  }

  // The task of an unmarked worker is not counted.
  lemma NotCounted(s: State, w: Worker)
    requires Counting(s) && w in s.workers && Unmarked(s.workers[w])
    ensures s.workers[w].e.ticket !in s.h.counted
  {
    hide CanceledTicket;
    OutstandingWorker(s.tasks, s.workers, w);
  }

  lemma SameCanceled(h: History, h': History, n: nat)
    requires h'.ticketOf == h.ticketOf && h'.canceledOk == h.canceledOk
    ensures CanceledTicket(h', n) <==> CanceledTicket(h, n)
  {
  }

  lemma TicketInRange(s: State, w: Worker)
    requires Sched(s) && w in s.workers && Busy(s.workers[w])
    ensures 0 < s.workers[w].e.ticket <= s.lastTicket
  {
  }

  lemma CountCancel(s: State, id: TaskId)
    requires Counting(s) && Ids(s) && Cancelable(s, id)
    ensures Counting(Cancel(s, id))
  {
    hide Outstanding, Distinct;
    var h := Cancel(s, id).h;
    NotFinished(s, id);
    forall n ensures CanceledTicket(h, n) <==> CanceledTicket(s.h, n) || (id in s.h.ticketOf && s.h.ticketOf[id] == n) {
      CanceledGrows(s.h, id, n);
    }
    CanceledOnce(s.h.canceledOk, id);
    hide CanceledTicket;
  }

  lemma NotFinished(s: State, id: TaskId)
    requires Ids(s) && id in s.states && !s.states[id].done
    ensures id !in s.h.finished
  {
  }

  lemma CanceledGrows(h: History, id: TaskId, n: nat)
    ensures CanceledTicket(h.(canceledOk := h.canceledOk + {id}), n) <==> CanceledTicket(h, n) || (id in h.ticketOf && h.ticketOf[id] == n)
  {
    var h' := h.(canceledOk := h.canceledOk + {id});
    if jd :| jd in h.canceledOk && jd in h.ticketOf && h.ticketOf[jd] == n { assert jd in h'.canceledOk; }
    if id in h.ticketOf && h.ticketOf[id] == n { assert id in h'.canceledOk; }
  }

  lemma CanceledOnce(c: set<TaskId>, id: TaskId)
    ensures |c + {id}| <= |c| + 1
  {
    if id in c { assert c + {id} == c; }
  }
}
