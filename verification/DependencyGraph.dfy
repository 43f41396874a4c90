/**
 Dependency relations: paths, cycles, and what a counting traversal in the manner of Kahn
 knows about them.
 */
module DependencyGraph {
  import opened Sums

  type TaskId = nat

  // The successors of each task.
  type Edges = map<TaskId, set<TaskId>>

  ghost predicate Edge(g: Edges, before: TaskId, after: TaskId) {
    before in g && after in g[before]
  }

  ghost function Preds(g: Edges, v: TaskId): set<TaskId> {
    set b | b in g && v in g[b]
  }

  // Every edge joins two tasks of the graph.
  ghost predicate Closed(g: Edges) {
    forall b, a | Edge(g, b, a) :: a in g
  }

  // ---------------------------------------------------------------------------------------
  // Cycles

  ghost predicate Path(g: Edges, p: seq<TaskId>) {
    forall i, j | 0 <= i && j == i + 1 < |p| :: Edge(g, p[i], p[j])
  }

  ghost predicate Cycle(g: Edges, p: seq<TaskId>) {
    |p| >= 2 && Path(g, p) && p[0] == p[|p| - 1]
  }

  ghost predicate Acyclic(g: Edges) {
    forall p :: !Cycle(g, p)
  }

  // A rank that grows along every edge.
  ghost predicate Ranked(g: Edges, rank: map<TaskId, nat>) {
    forall b, a | Edge(g, b, a) :: b in rank && a in rank && rank[b] < rank[a]
  }

  lemma {:induction false} RankAlongPath(g: Edges, rank: map<TaskId, nat>, p: seq<TaskId>, n: nat)
    requires Ranked(g, rank) && Path(g, p) && 0 < n < |p|
    ensures p[0] in rank && p[n] in rank && rank[p[0]] < rank[p[n]]
  {
    assert Edge(g, p[n - 1], p[n]);
    if n > 1 { RankAlongPath(g, rank, p, n - 1); }
  }

  lemma RankedIsAcyclic(g: Edges, rank: map<TaskId, nat>)
    requires Ranked(g, rank)
    ensures Acyclic(g)
  {
    forall p ensures !Cycle(g, p) {
      if Cycle(g, p) { RankAlongPath(g, rank, p, |p| - 1); }
    }
  }

  // Every task of r waits for another task of r.
  ghost predicate Waiting(g: Edges, r: set<TaskId>) {
    forall v | v in r :: Preds(g, v) * r != {}
  }

  // A path of n tasks inside a set of waiting tasks.
  lemma {:induction false} WalkBack(g: Edges, r: set<TaskId>, n: nat) returns (p: seq<TaskId>)
    requires Waiting(g, r) && r != {} && n > 0
    ensures |p| == n && Path(g, p) && forall i | 0 <= i < n :: p[i] in r
  {
    if n == 1 {
      var v := Pick(r);
      p := [v];
    } else {
      var q := WalkBack(g, r, n - 1);
      assert q[0] in r;
      var b := Pick(Preds(g, q[0]) * r);
      p := [b] + q;
      forall i, j | 0 <= i && j == i + 1 < n ensures Edge(g, p[i], p[j]) {
        if i > 0 { assert Edge(g, q[i - 1], q[j - 1]); }
      }
    }
  }

  lemma Pigeonhole<T>(s: seq<T>, r: set<T>)
    requires (forall i | 0 <= i < |s| :: s[i] in r) && |s| > |r|
    ensures !Distinct(s)
  {
    if Distinct(s) {
      DistinctSize(s);
      SubsetSize(Elements(s), r);
    }
  }

  lemma WaitingHasCycle(g: Edges, r: set<TaskId>)
    requires Waiting(g, r) && r != {}
    ensures !Acyclic(g)
  {
    var p := WalkBack(g, r, |r| + 1);
    Pigeonhole(p, r);
    var i, j :| 0 <= i < j < |p| && p[i] == p[j];
    var c := p[i..j + 1];
    forall k, l | 0 <= k && l == k + 1 < |c| ensures Edge(g, c[k], c[l]) {
      assert Edge(g, p[i + k], p[i + l]);
    }
    assert Cycle(g, c);
  }

  // ---------------------------------------------------------------------------------------
  // Kahn's traversal

  type Counts = map<TaskId, nat>

  // The predecessors of v outside a set.
  ghost function Missing(g: Edges, v: TaskId, done: set<TaskId>): set<TaskId> {
    Preds(g, v) - done
  }

  // `done` are the tasks whose outgoing edges have been taken off the counts, `held` those
  // taken from the ready queue and not yet done.
  ghost predicate Domain(g: Edges, indegree: Counts, done: set<TaskId>, held: set<TaskId>) {
    && Closed(g) && indegree.Keys == g.Keys
    && done <= g.Keys && held <= g.Keys && done !! held
  }

  ghost predicate Started(g: Edges, done: set<TaskId>, held: set<TaskId>) {
    forall v | v in done || v in held :: Preds(g, v) <= done
  }

  ghost predicate Queued(indegree: Counts, ready: seq<TaskId>, done: set<TaskId>, held: set<TaskId>) {
    && Distinct(ready)
    && (forall v :: v in ready <==> v in indegree && v !in done && v !in held && indegree[v] == 0)
  }

  // The counts, where the tasks in `rest` still count id.
  ghost predicate Counted(g: Edges, indegree: Counts, done: set<TaskId>, id: TaskId, rest: set<TaskId>) {
    forall v | v in indegree :: indegree[v] == |Missing(g, v, if v in rest then done else done + {id})|
  }

  ghost predicate Kahn(g: Edges, indegree: Counts, ready: seq<TaskId>, done: set<TaskId>, held: set<TaskId>) {
    && Domain(g, indegree, done, held)
    && Started(g, done, held)
    && Queued(indegree, ready, done, held)
    && (forall v | v in indegree :: indegree[v] == |Missing(g, v, done)|)
  }

  // While the successors of id are visited.
  ghost predicate Relaxing(g: Edges, indegree: Counts, ready: seq<TaskId>, done: set<TaskId>, held: set<TaskId>,
                           id: TaskId, rest: set<TaskId>)
  {
    && Domain(g, indegree, done, held)
    && Started(g, done, held)
    && Queued(indegree, ready, done, held)
    && id in held && rest <= g[id]
    && Counted(g, indegree, done, id, rest)
  }

  lemma KahnStart(g: Edges, indegree: Counts, ready: seq<TaskId>)
    requires Closed(g) && indegree.Keys == g.Keys && Queued(indegree, ready, {}, {})
    requires forall v | v in g :: indegree[v] == |Missing(g, v, {})|
    ensures Kahn(g, indegree, ready, {}, {}) && RanksDone(g, {}, map[])
  {
    hide Missing, Queued, Closed;
  }

  lemma MissingKept(g: Edges, v: TaskId, done: set<TaskId>, id: TaskId)
    requires !Edge(g, id, v)
    ensures Missing(g, v, done + {id}) == Missing(g, v, done)
  {
  }

  lemma MissingLess(g: Edges, v: TaskId, done: set<TaskId>, id: TaskId)
    requires Edge(g, id, v) && id !in done
    ensures |Missing(g, v, done)| == |Missing(g, v, done + {id})| + 1
  {
    assert Missing(g, v, done) == Missing(g, v, done + {id}) + {id};
  }

  lemma RelaxStart(g: Edges, indegree: Counts, ready: seq<TaskId>, done: set<TaskId>, held: set<TaskId>, id: TaskId)
    requires Kahn(g, indegree, ready, done, held) && id in held
    ensures Relaxing(g, indegree, ready, done, held, id, g[id])
  {
    hide Missing, Started, Queued, Closed;
    forall v | v in indegree ensures indegree[v] == |Missing(g, v, if v in g[id] then done else done + {id})| {
      if v !in g[id] { MissingKept(g, v, done, id); }
    }
  }

  // A visited successor is in no set and not ready, and its count is positive.
  lemma RelaxTarget(g: Edges, indegree: Counts, ready: seq<TaskId>, done: set<TaskId>, held: set<TaskId>,
                    id: TaskId, rest: set<TaskId>, v: TaskId)
    requires Relaxing(g, indegree, ready, done, held, id, rest) && v in rest
    ensures v in indegree && indegree[v] > 0
    ensures v !in done && v !in held && v !in ready
    ensures indegree[v] - 1 == |Missing(g, v, done + {id})|
  {
    hide Missing;
    assert Edge(g, id, v);
    MissingLess(g, v, done, id);
    assert id in Preds(g, v);
  }

  lemma CountedStep(g: Edges, indegree: Counts, done: set<TaskId>, id: TaskId, rest: set<TaskId>, v: TaskId)
    requires Counted(g, indegree, done, id, rest) && v in rest && v in indegree && indegree[v] > 0
    requires indegree[v] - 1 == |Missing(g, v, done + {id})|
    ensures Counted(g, indegree[v := indegree[v] - 1], done, id, rest - {v})
  {
    hide Missing;
  }

  lemma QueuedStep(indegree: Counts, ready: seq<TaskId>, done: set<TaskId>, held: set<TaskId>, v: TaskId)
    requires Queued(indegree, ready, done, held) && v in indegree && indegree[v] > 0 && v !in done && v !in held
    ensures Queued(indegree[v := indegree[v] - 1], if indegree[v] == 1 then ready + [v] else ready, done, held)
  {
  }

  lemma RelaxOne(g: Edges, indegree: Counts, ready: seq<TaskId>, done: set<TaskId>, held: set<TaskId>,
                 id: TaskId, rest: set<TaskId>, v: TaskId)
    requires Relaxing(g, indegree, ready, done, held, id, rest) && v in rest
    ensures v in indegree && indegree[v] > 0
    ensures Relaxing(g, indegree[v := indegree[v] - 1],
                     if indegree[v] == 1 then ready + [v] else ready, done, held, id, rest - {v})
  {
    hide Missing, Started, Queued, Closed, Counted;
    RelaxTarget(g, indegree, ready, done, held, id, rest, v);
    CountedStep(g, indegree, done, id, rest, v);
    QueuedStep(indegree, ready, done, held, v);
  }

  lemma RelaxEnd(g: Edges, indegree: Counts, ready: seq<TaskId>, done: set<TaskId>, held: set<TaskId>, id: TaskId)
    requires Relaxing(g, indegree, ready, done, held, id, {})
    ensures Kahn(g, indegree, ready, done + {id}, held - {id})
  {
    hide Missing, Preds, Closed;
  }

  // Taking the first ready task.
  lemma TakeReady(g: Edges, indegree: Counts, ready: seq<TaskId>, done: set<TaskId>, held: set<TaskId>)
    requires Kahn(g, indegree, ready, done, held) && ready != []
    ensures ready[0] in g && ready[0] !in done && ready[0] !in held
    ensures Kahn(g, indegree, ready[1..], done, held + {ready[0]})
  {
    hide Missing, Preds, Closed, Distinct;
    var v := ready[0];
    assert v in ready;
    NoneMissing(g, v, done);
    QueueRest(indegree, ready, done, held);
  }

  lemma NoneMissing(g: Edges, v: TaskId, done: set<TaskId>)
    ensures |Missing(g, v, done)| == 0 <==> Preds(g, v) <= done
  {
    hide Preds;
    forall b | b in Preds(g, v) && b !in done ensures |Missing(g, v, done)| > 0 {
      assert b in Missing(g, v, done);
    }
    assert Preds(g, v) <= done ==> Missing(g, v, done) == {};
  }

  lemma QueueRest(indegree: Counts, ready: seq<TaskId>, done: set<TaskId>, held: set<TaskId>)
    requires Queued(indegree, ready, done, held) && ready != []
    ensures Queued(indegree, ready[1..], done, held + {ready[0]})
  {
    forall v ensures v in ready[1..] <==> v in ready && v != ready[0] {
      if v in ready && v != ready[0] {
        var i :| 0 <= i < |ready| && ready[i] == v;
        assert ready[1..][i - 1] == v;
      }
    }
  }

  // The traversal is over: what is left waits for itself.
  lemma KahnEnd(g: Edges, indegree: Counts, done: set<TaskId>)
    requires Kahn(g, indegree, [], done, {})
    ensures Waiting(g, g.Keys - done)
  {
    forall v | v in g.Keys - done ensures Preds(g, v) * (g.Keys - done) != {} {
      assert v !in [];
      assert |Missing(g, v, done)| > 0;
      var b := Pick(Missing(g, v, done));
      assert b in Preds(g, v) * (g.Keys - done);
    }
  }

  // A finished traversal that reached every task, or did not.
  lemma Verdict(g: Edges, indegree: Counts, done: set<TaskId>, rank: map<TaskId, nat>)
    requires Kahn(g, indegree, [], done, {}) && RanksDone(g, done, rank)
    ensures |done| == |g.Keys| <==> Acyclic(g)
    ensures |done| == |g.Keys| ==> done == g.Keys
  {
    hide Kahn, Acyclic, Waiting;
    KahnDomain(g, indegree, [], done, {});
    if |done| == |g.Keys| {
      SubsetSize(done, g.Keys);
      assert Ranked(g, rank);
      RankedIsAcyclic(g, rank);
    } else {
      KahnEnd(g, indegree, done);
      SomethingLeft(done, g.Keys);
      WaitingHasCycle(g, g.Keys - done);
    }
  }

  lemma KahnDomain(g: Edges, indegree: Counts, ready: seq<TaskId>, done: set<TaskId>, held: set<TaskId>)
    requires Kahn(g, indegree, ready, done, held)
    ensures Closed(g) && done <= g.Keys && held <= g.Keys
  {
  }

  // The order in which tasks were done grows along the edges among them.
  ghost predicate RanksDone(g: Edges, done: set<TaskId>, rank: map<TaskId, nat>) {
    && rank.Keys == done
    && (forall b, a | Edge(g, b, a) && a in done :: b in done && rank[b] < rank[a])
  }

  ghost predicate Below(rank: map<TaskId, nat>, n: nat) {
    forall v | v in rank :: rank[v] < n
  }

  lemma RankNext(g: Edges, done: set<TaskId>, id: TaskId, rank: map<TaskId, nat>, n: nat)
    requires Started(g, done, {id}) && id !in done && RanksDone(g, done, rank) && Below(rank, n)
    ensures RanksDone(g, done + {id}, rank[id := n]) && Below(rank[id := n], n + 1)
  {
    forall b, a | Edge(g, b, a) && a in done + {id} ensures b in done && rank[b] < rank[id := n][a] {
      assert b in Preds(g, a);
      assert a in done || a in {id};
    }
  }

  lemma SomethingLeft<T>(a: set<T>, b: set<T>)
    requires a <= b && |a| != |b|
    ensures b - a != {}
  {
    assert b == a + (b - a);
  }
}
