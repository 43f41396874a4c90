/**
 Every step of the executor keeps its invariant.
 */
module ExecutorSteps {
  import opened Sums
  import opened ExecutorModel

  // Worker w goes on with the same task.
  ghost predicate GoesOn(ws: map<Worker, Phase>, ws': map<Worker, Phase>, w: Worker) {
    && w in ws && w in ws' && ws' == ws[w := ws'[w]]
    && Busy(ws[w]) && Busy(ws'[w]) && ws'[w].e == ws[w].e
  }

  // ---------------------------------------------------------------------------------------
  // Scheduling

  lemma SchedGoesOn(tasks: seq<Entry>, ws: map<Worker, Phase>, ws': map<Worker, Phase>, active: nat, pending: nat, last: nat, w: Worker)
    requires SchedInv(tasks, ws, active, pending, last) && GoesOn(ws, ws', w)
    ensures SchedInv(tasks, ws', active, pending, last)
  {
    hide BusyWorkers;
    BusyGoesOn(ws, ws', w);
  }

  lemma BusyGoesOn(ws: map<Worker, Phase>, ws': map<Worker, Phase>, w: Worker)
    requires GoesOn(ws, ws', w)
    ensures BusyWorkers(ws') == BusyWorkers(ws)
  {
  }

  lemma BusyLeaves(ws: map<Worker, Phase>, w: Worker)
    requires w in ws && Busy(ws[w])
    ensures |BusyWorkers(ws)| == |BusyWorkers(ws[w := Idle])| + 1
  {
    assert BusyWorkers(ws) == BusyWorkers(ws[w := Idle]) + {w};
  }

  lemma SchedAccept(tasks: seq<Entry>, ws: map<Worker, Phase>, active: nat, pending: nat, last: nat, e: Entry)
    requires SchedInv(tasks, ws, active, pending, last) && e.ticket == last + 1
    ensures SchedInv(tasks + [e], ws, active, pending + 1, last + 1)
  {
    hide BusyWorkers;
    assert forall f | f in tasks + [e] :: f in tasks || f == e;
    forall i, j | 0 <= i < j < |tasks + [e]| ensures (tasks + [e])[i].ticket < (tasks + [e])[j].ticket {
      assert tasks[i] in tasks;
    }
  }

  lemma SchedTake(tasks: seq<Entry>, ws: map<Worker, Phase>, active: nat, pending: nat, last: nat, w: Worker, i: nat)
    requires SchedInv(tasks, ws, active, pending, last) && i < |tasks| && w in ws && ws[w] == Idle
    ensures SchedInv(tasks[..i] + tasks[i + 1..], ws[w := Taken(tasks[i])], active + 1, pending, last)
  {
    hide BusyWorkers;
    var rest, ws' := tasks[..i] + tasks[i + 1..], ws[w := Taken(tasks[i])];
    BusyLeaves(ws', w);
    assert ws'[w := Idle] == ws;
    assert tasks[i] in tasks;
    Removed(tasks, i);
  }

  // Where element j of the rest was before.
  function Before(i: nat, j: nat): nat {
    if j < i then j else j + 1
  }

  lemma RestAt(tasks: seq<Entry>, i: nat, j: nat)
    requires i < |tasks| && j < |tasks| - 1
    ensures (tasks[..i] + tasks[i + 1..])[j] == tasks[Before(i, j)]
  {
  }

  lemma RestMember(tasks: seq<Entry>, i: nat, e: Entry)
    requires i < |tasks| && forall j, k | 0 <= j < k < |tasks| :: tasks[j].ticket < tasks[k].ticket
    ensures e in tasks[..i] + tasks[i + 1..] ==> e in tasks && e.ticket != tasks[i].ticket
    ensures e in tasks ==> e in tasks[..i] + tasks[i + 1..] || e == tasks[i]
  {
    var rest := tasks[..i] + tasks[i + 1..];
    if e in rest {
      var j :| 0 <= j < |rest| && rest[j] == e;
      RestAt(tasks, i, j);
    }
    if e in tasks && e != tasks[i] {
      var j :| 0 <= j < |tasks| && tasks[j] == e;
      RestAt(tasks, i, if j < i then j else j - 1);
    }
  }

  lemma RestSorted(tasks: seq<Entry>, i: nat, j: nat, k: nat)
    requires i < |tasks| && forall j, k | 0 <= j < k < |tasks| :: tasks[j].ticket < tasks[k].ticket
    requires j < k < |tasks| - 1
    ensures (tasks[..i] + tasks[i + 1..])[j].ticket < (tasks[..i] + tasks[i + 1..])[k].ticket
  {
    RestAt(tasks, i, j);
    RestAt(tasks, i, k);
  }

  // Taking out element i.
  lemma Removed(tasks: seq<Entry>, i: nat)
    requires i < |tasks| && forall j, k | 0 <= j < k < |tasks| :: tasks[j].ticket < tasks[k].ticket
    ensures var rest := tasks[..i] + tasks[i + 1..];
      && (forall e | e in rest :: e in tasks && e.ticket != tasks[i].ticket)
      && (forall e | e in tasks :: e in rest || e == tasks[i])
      && (forall j, k | 0 <= j < k < |rest| :: rest[j].ticket < rest[k].ticket)
  {
    var rest := tasks[..i] + tasks[i + 1..];
    forall e ensures (e in rest ==> e in tasks && e.ticket != tasks[i].ticket) && (e in tasks ==> e in rest || e == tasks[i]) {
      RestMember(tasks, i, e);
    }
    forall j, k | 0 <= j < k < |rest| ensures rest[j].ticket < rest[k].ticket { RestSorted(tasks, i, j, k); }
  }

  // The guards of both decrements hold.
  lemma SchedLeave(tasks: seq<Entry>, ws: map<Worker, Phase>, active: nat, pending: nat, last: nat, w: Worker)
    requires SchedInv(tasks, ws, active, pending, last) && w in ws && Busy(ws[w])
    ensures active > 0 && pending > 0 && SchedInv(tasks, ws[w := Idle], active - 1, pending - 1, last)
  {
    hide BusyWorkers;
    BusyLeaves(ws, w);
  }

  // ---------------------------------------------------------------------------------------
  // Keys

  lemma KeyGoesOn(ws: map<Worker, Phase>, ws': map<Worker, Phase>, holders: map<nat, Worker>, w: Worker)
    requires KeyInv(ws, holders) && w in ws && w in ws' && ws' == ws[w := ws'[w]]
    requires Holds(ws'[w]) == Holds(ws[w]) && (Holds(ws[w]) ==> ws'[w].e == ws[w].e)
    ensures KeyInv(ws', holders)
  {
  }

  lemma KeyAcquire(ws: map<Worker, Phase>, ws': map<Worker, Phase>, holders: map<nat, Worker>, w: Worker, key: nat)
    requires KeyInv(ws, holders) && w in ws && w in ws' && ws' == ws[w := ws'[w]] && !Holds(ws[w])
    requires Holds(ws'[w]) && ws'[w].e.key == key && key !in holders
    ensures KeyInv(ws', if key == 0 then holders else holders[key := w])
  {
  }

  lemma KeyRelease(ws: map<Worker, Phase>, ws': map<Worker, Phase>, holders: map<nat, Worker>, w: Worker, key: nat)
    requires KeyInv(ws, holders) && w in ws && w in ws' && ws' == ws[w := ws'[w]] && Holds(ws[w]) && ws[w].e.key == key
    requires !Holds(ws'[w])
    ensures KeyInv(ws', if key == 0 then holders else holders - {key})
  {
  }

  // ---------------------------------------------------------------------------------------
  // Ids

  lemma KeptFacts(finished: seq<TaskId>)
    requires Distinct(finished)
    ensures forall id | id in Kept(finished) :: id in finished
    ensures |Kept(finished)| <= RETAINED
  {
  }

  lemma IdRegister(states: map<TaskId, TaskState>, pending: set<TaskId>, done: seq<TaskId>, next: TaskId, finished: seq<TaskId>)
    requires IdInv(states, pending, done, next, finished)
    ensures IdInv(states[next := TaskState(false, false, false, false)], pending + {next}, done, next + 1, finished)
    ensures next !in states
  {
    hide Kept, Distinct;
    KeptFacts(finished);
  }

  lemma IdWithdraw(states: map<TaskId, TaskState>, pending: set<TaskId>, done: seq<TaskId>, next: TaskId, finished: seq<TaskId>, id: TaskId)
    requires IdInv(states, pending, done, next, finished) && id in pending
    ensures IdInv(states - {id}, pending - {id}, done, next, finished)
  {
    hide Kept, Distinct;
    KeptFacts(finished);
  }

  // A state changes without finishing.
  lemma IdUpdate(states: map<TaskId, TaskState>, pending: set<TaskId>, done: seq<TaskId>, next: TaskId, finished: seq<TaskId>,
                 id: TaskId, st: TaskState)
    requires IdInv(states, pending, done, next, finished) && id in states && st.done == states[id].done
    ensures IdInv(states[id := st], pending, done, next, finished)
  {
    hide Kept, Distinct;
  }

  lemma SplitDistinct<T>(s: seq<T>, n: nat)
    requires Distinct(s) && n <= |s|
    ensures Elements(s[n..]) == Elements(s) - Elements(s[..n])
  {
    assert s == s[..n] + s[n..];
    forall x | x in s[n..] ensures x !in s[..n] {
      var i :| 0 <= i < |s| - n && s[n..][i] == x;
      assert s[n + i] == x;
    }
  }

  // Remembering one more id, and forgetting the oldest when there are too many.
  lemma KeptNext(finished: seq<TaskId>, id: TaskId)
    requires Distinct(finished) && id !in finished
    ensures Distinct(finished + [id]) && Kept(Kept(finished) + [id]) == Kept(finished + [id])
    ensures Elements(Kept(finished + [id])) == Elements(Kept(finished)) + {id} - Dropped(Kept(finished) + [id])
  {
    hide Kept, Dropped, Distinct;
    KeptTwice(finished, id);
    KeptDistinct(finished, id);
    KeptElements(Kept(finished) + [id]);
    assert Elements(Kept(finished) + [id]) == Elements(Kept(finished)) + {id};
  }

  lemma KeptTwice(finished: seq<TaskId>, id: TaskId)
    ensures Kept(Kept(finished) + [id]) == Kept(finished + [id])
  {
    if |finished| > RETAINED {
      var n := |finished| - RETAINED;
      assert Kept(finished + [id]) == (finished + [id])[n + 1..];
      assert finished[n..][1..] == finished[n + 1..];
      assert (finished[n..] + [id])[1..] == finished[n..][1..] + [id];
      assert (finished + [id])[n + 1..] == finished[n + 1..] + [id];
    }
  }

  lemma KeptDistinct(finished: seq<TaskId>, id: TaskId)
    requires Distinct(finished) && id !in finished
    ensures Distinct(finished + [id]) && Distinct(Kept(finished) + [id])
  {
  }

  lemma KeptElements(d: seq<TaskId>)
    requires Distinct(d)
    ensures Elements(Kept(d)) == Elements(d) - Dropped(d)
  {
    if |d| > RETAINED { SplitDistinct(d, |d| - RETAINED); }
  }

  lemma IdMark(states: map<TaskId, TaskState>, pending: set<TaskId>, done: seq<TaskId>, next: TaskId, finished: seq<TaskId>,
               id: TaskId, st: TaskState)
    requires IdInv(states, pending, done, next, finished) && id in pending && st.done
    ensures IdInv(states[id := st] - Dropped(done + [id]), pending - {id}, Kept(done + [id]), next, finished + [id])
    ensures Dropped(done + [id]) <= Elements(finished)
  {
    hide Kept, Dropped, Distinct, Elements;
    KeptNext(finished, id);
    DroppedFinished(finished, id);
    KeptFacts(finished);
    InElements(finished);
    InElements(done);
    MarkedKeys(states.Keys, pending, Elements(done), Dropped(done + [id]), Elements(finished), id);
    InElements(Kept(done + [id]));
    assert forall jd :: jd in finished + [id] <==> jd in finished || jd == id;
  }

  lemma InElements<T>(s: seq<T>)
    ensures forall x :: x in Elements(s) <==> x in s
  {
  }

  lemma MarkedKeys(keys: set<TaskId>, pending: set<TaskId>, done: set<TaskId>, dropped: set<TaskId>, finished: set<TaskId>, id: TaskId)
    requires keys == pending + done && id in pending && dropped <= finished && pending !! finished
    ensures keys + {id} - dropped == (pending - {id}) + (done + {id} - dropped)
  {
  }

  lemma DroppedFinished(finished: seq<TaskId>, id: TaskId)
    ensures Dropped(Kept(finished) + [id]) <= Elements(finished)
  {
  }
}
