/**
 The task graph: construction, validation, and the level-by-level runner.

 Sets and maps are visited in an arbitrary order, which includes the ascending one.
 */
module TaskGraph {
  import opened Sums
  import opened DependencyGraph

  datatype Status = Ok | InvalidArgument | NotFound | InternalError | Refused | WaitFailed

  datatype Node = Node(name: string, priority: int)

  datatype AddResult = Added(id: TaskId) | NotAdded(status: Status)

  // ---------------------------------------------------------------------------------------
  // Counting predecessors

  ghost function Seen(g: Edges, v: TaskId, sources: set<TaskId>): set<TaskId> {
    Preds(g, v) * sources
  }

  // The counts after the edges of `sources`, and of b except those into `rest`.
  ghost predicate Tally(g: Edges, n: Counts, sources: set<TaskId>, b: TaskId, rest: set<TaskId>) {
    forall v | v in n :: n[v] == |Seen(g, v, if v in rest then sources else sources + {b})|
  }

  ghost predicate Totals(g: Edges, n: Counts, sources: set<TaskId>) {
    forall v | v in n :: n[v] == |Seen(g, v, sources)|
  }

  lemma TallyStart(g: Edges, n: Counts, sources: set<TaskId>, b: TaskId)
    requires Totals(g, n, sources) && b in g
    ensures Tally(g, n, sources, b, g[b])
  {
    forall v | v in n && v !in g[b] ensures Seen(g, v, sources + {b}) == Seen(g, v, sources) {
    }
  }

  lemma TallyEnd(g: Edges, n: Counts, sources: set<TaskId>, b: TaskId)
    requires Tally(g, n, sources, b, {})
    ensures Totals(g, n, sources + {b})
  {
    hide Seen;
  }

  lemma TallyStep(g: Edges, n: Counts, sources: set<TaskId>, b: TaskId, rest: set<TaskId>, v: TaskId)
    requires Tally(g, n, sources, b, rest) && b in g && b !in sources && v in rest && rest <= g[b] && v in n
    ensures Tally(g, n[v := n[v] + 1], sources, b, rest - {v})
  {
    hide Preds;
    assert b in Preds(g, v) by { OneMore(g, b, v); }
    assert Seen(g, v, sources + {b}) == Seen(g, v, sources) + {b};
  }

  lemma OneMore(g: Edges, b: TaskId, v: TaskId)
    ensures b in Preds(g, v) <==> Edge(g, b, v)
  {
  }

  lemma NothingSeen(g: Edges, n: Counts)
    requires forall v | v in n :: n[v] == 0
    ensures Totals(g, n, {})
  {
  }

  lemma AllSeen(g: Edges, n: Counts)
    requires Totals(g, n, g.Keys)
    ensures forall v | v in n :: n[v] == |Missing(g, v, {})|
  {
    forall v | v in n ensures n[v] == |Missing(g, v, {})| {
      assert Seen(g, v, g.Keys) == Missing(g, v, {});
    }
  }

  lemma ClosedMeans(g: Edges)
    ensures Closed(g) <==> forall b | b in g :: g[b] <= g.Keys
  {
    forall b, a | b in g && a in g[b] && Closed(g) ensures a in g {
      assert Edge(g, b, a);
    }
  }

  lemma NothingBelow()
    ensures Below(map[], 0)
  {
  }

  lemma RankTaken(g: Edges, indegree: Counts, ready: seq<TaskId>, done: set<TaskId>, id: TaskId, rank: map<TaskId, nat>, n: nat)
    requires Kahn(g, indegree, ready, done, {id}) && RanksDone(g, done, rank) && Below(rank, n)
    ensures RanksDone(g, done + {id}, rank[id := n]) && Below(rank[id := n], n + 1)
  {
    hide RanksDone, Below, Started, Queued;
    RankNext(g, done, id, rank, n);
  }

  lemma LessLeft(all: set<TaskId>, done: set<TaskId>, id: TaskId)
    requires id in all && id !in done
    ensures |all - (done + {id})| < |all - done| && |done + {id}| == |done| + 1
  {
    assert all - done == (all - (done + {id})) + {id};
  }

  lemma SameSize<A, B>(m: map<TaskId, A>, n: map<TaskId, B>)
    requires m.Keys == n.Keys
    ensures |m| == |n.Keys|
  {
    assert |m| == |m.Keys|;
  }

  // ---------------------------------------------------------------------------------------
  // Runs

  datatype Options = Options(failFast: bool, maxConcurrency: nat)

  datatype Stats = Stats(total: nat, succeeded: nat, failed: nat, canceled: int)

  datatype RunResult = Finished(stats: Stats) | Aborted(status: Status)

  // What the surroundings do: which bodies throw and, with an executor, which submissions are
  // refused and which waits fail (by the number of the level).
  datatype Surroundings = Surroundings(throwing: set<TaskId>, refused: set<TaskId>, badWaits: set<nat>)

  function Executed(levels: seq<seq<TaskId>>): set<TaskId> {
    if levels == [] then {} else Executed(levels[..|levels| - 1]) + Elements(levels[|levels| - 1])
  }

  // Each level holds tasks not run before, whose predecessors all belong to earlier levels.
  ghost predicate Schedule(g: Edges, levels: seq<seq<TaskId>>) {
    levels == [] ||
    (var before, level := levels[..|levels| - 1], levels[|levels| - 1];
     && Schedule(g, before) && Distinct(level) && Elements(level) !! Executed(before)
     && forall v | v in level :: v in g && Preds(g, v) <= Executed(before))
  }

  // The cap on a level; 0 is no cap.
  predicate Fits(level: seq<TaskId>, cap: nat) {
    level != [] && (cap == 0 || |level| <= cap)
  }

  // Before the last level, nothing threw.
  ghost predicate QuietUntilLast(levels: seq<seq<TaskId>>, throwing: set<TaskId>) {
    forall i | 0 <= i < |levels| - 1 :: Elements(levels[i]) !! throwing
  }

  lemma ScheduleNext(g: Edges, levels: seq<seq<TaskId>>, level: seq<TaskId>)
    requires Schedule(g, levels) && Distinct(level) && Elements(level) !! Executed(levels)
    requires forall v | v in level :: v in g && Preds(g, v) <= Executed(levels)
    ensures Schedule(g, levels + [level]) && Executed(levels + [level]) == Executed(levels) + Elements(level)
  {
    assert (levels + [level])[..|levels + [level]| - 1] == levels;
  }

  // How many tasks of a level throw, and how many return.
  ghost function Threw(level: seq<TaskId>, throwing: set<TaskId>): nat {
    |Elements(level) * throwing|
  }

  ghost function Returned(level: seq<TaskId>, throwing: set<TaskId>): nat {
    |Elements(level) - throwing|
  }

  // A level taken from the ready queue can run after the levels that are done.
  ghost predicate Startable(g: Edges, level: seq<TaskId>, done: set<TaskId>) {
    && Distinct(level) && Elements(level) !! done
    && (forall v | v in level :: v in g && Preds(g, v) <= done)
  }

  lemma StartablePrefix(g: Edges, level: seq<TaskId>, done: set<TaskId>, n: nat)
    requires Startable(g, level, done) && n <= |level|
    ensures Startable(g, level[..n], done)
  {
  }

  lemma NoElements()
    ensures Elements<TaskId>([]) == {}
  {
  }

  lemma LastElement<T>(s: seq<T>, n: nat)
    requires n < |s|
    ensures Elements(s[..n + 1]) == Elements(s[..n]) + {s[n]}
  {
    assert s[..n + 1] == s[..n] + [s[n]];
  }

  lemma FirstElement<T>(s: seq<T>, n: nat)
    requires n < |s| && Distinct(s)
    ensures s[n] in Elements(s[n..]) && Elements(s[n + 1..]) == Elements(s[n..]) - {s[n]}
  {
    assert s[n..] == [s[n]] + s[n + 1..];
  }

  lemma NewElement<T>(s: seq<T>, n: nat)
    requires n < |s| && Distinct(s)
    ensures s[n] !in Elements(s[..n])
  {
  }

  // One more task of a level is counted.
  lemma CountNext(level: seq<TaskId>, n: nat, throwing: set<TaskId>)
    requires n < |level| && Distinct(level)
    ensures |Elements(level[..n + 1]) * throwing| == |Elements(level[..n]) * throwing| + (if level[n] in throwing then 1 else 0)
    ensures |Elements(level[..n + 1]) - throwing| == |Elements(level[..n]) - throwing| + (if level[n] in throwing then 0 else 1)
  {
    hide Elements, Distinct;
    var s, v := Elements(level[..n]), level[n];
    LastElement(level, n);
    NewElement(level, n);
    if v in throwing {
      assert (s + {v}) * throwing == s * throwing + {v};
      assert (s + {v}) - throwing == s - throwing;
    } else {
      assert (s + {v}) * throwing == s * throwing;
      assert (s + {v}) - throwing == (s - throwing) + {v};
    }
  }

  lemma NothingYet(throwing: set<TaskId>)
    ensures QuietSoFar([], throwing)
  {
  }

  lemma LevelStartable(g: Edges, indegree: Counts, ready: seq<TaskId>, done: set<TaskId>, level: seq<TaskId>)
    requires Kahn(g, indegree, ready, done, Elements(level)) && Distinct(level)
    ensures Startable(g, level, done) && Elements(level) <= g.Keys && Elements(level) !! done
  {
    hide Queued, Missing, Preds, Closed;
    assert forall v | v in level :: v in Elements(level);
  }

  // The counts of a level add to those of the levels before it.
  lemma CountsAdd(done: set<TaskId>, level: seq<TaskId>, throwing: set<TaskId>, g: Edges)
    requires Startable(g, level, done)
    ensures |(done + Elements(level)) * throwing| == |done * throwing| + |Elements(level) * throwing|
    ensures |(done + Elements(level)) - throwing| == |done - throwing| + |Elements(level) - throwing|
    ensures |done + Elements(level)| == |done| + |level|
  {
    hide Elements, Distinct;
    var e := Elements(level);
    DistinctSize(level);
    assert (done + e) * throwing == done * throwing + e * throwing;
    assert (done + e) - throwing == (done - throwing) + (e - throwing);
  }

  lemma CountsSplit(done: set<TaskId>, throwing: set<TaskId>)
    ensures |done * throwing| + |done - throwing| == |done|
  {
    assert done * throwing + (done - throwing) == done;
  }

  lemma AllDone(g: Edges, indegree: Counts, done: set<TaskId>)
    requires Kahn(g, indegree, [], done, {}) && Acyclic(g)
    ensures done == g.Keys
  {
    hide Acyclic, Waiting, Kahn;
    KahnDomain(g, indegree, [], done, {});
    KahnEnd(g, indegree, done);
    SubsetSize(done, g.Keys);
    if |done| != |g.Keys| {
      SomethingLeft(done, g.Keys);
      WaitingHasCycle(g, g.Keys - done);
    }
  }

  ghost function Left(g: Edges, done: set<TaskId>): nat {
    |g.Keys - done|
  }

  lemma Shrinks(g: Edges, done: set<TaskId>, level: seq<TaskId>, cap: nat)
    requires Fits(level, cap) && Elements(level) <= g.Keys && Elements(level) !! done
    ensures Left(g, done + Elements(level)) < Left(g, done)
  {
    var all := g.Keys;
    assert level[0] in Elements(level);
    assert all - done == (all - (done + Elements(level))) + Elements(level);
  }

  // Level i is as large as the cap allows, or holds every task that could run.
  ghost predicate Greedy(g: Edges, levels: seq<seq<TaskId>>, i: nat, cap: nat)
    requires i < |levels|
  {
    || (cap > 0 && |levels[i]| == cap)
    || (forall v | v in g && Preds(g, v) <= Executed(levels[..i]) :: v in Executed(levels[..i + 1]))
  }

  // Complete levels: none left out a task without reason, and the executor saw each of them
  // through.
  ghost predicate Followed(g: Edges, executor: bool, cap: nat, around: Surroundings, levels: seq<seq<TaskId>>) {
    && (forall i | 0 <= i < |levels| :: levels[i] != [] && Greedy(g, levels, i, cap))
    && (executor ==> Executed(levels) !! around.refused && forall i | 0 <= i < |levels| :: i !in around.badWaits)
  }

  // The executor turned down a task whose turn had come.
  ghost predicate TurnedDown(g: Edges, around: Surroundings, levels: seq<seq<TaskId>>)
    requires levels != []
  {
    exists v :: v in g && v in around.refused && v !in Executed(levels) && Preds(g, v) <= Executed(levels[..|levels| - 1])
  }

  // What a run of a valid graph reports and what it ran.
  ghost predicate RunOk(g: Edges, executor: bool, options: Options, around: Surroundings,
                        r: RunResult, levels: seq<seq<TaskId>>)
  {
    && Schedule(g, levels)
    && (forall i | 0 <= i < |levels| :: options.maxConcurrency == 0 || |levels[i]| <= options.maxConcurrency)
    && (options.failFast ==> QuietUntilLast(levels, around.throwing))
    && match r
       case Finished(stats) =>
         && StatsOk(g, options, around, stats, Executed(levels))
         && Followed(g, executor, options.maxConcurrency, around, levels)
       case Aborted(st) =>
         && executor && levels != []
         && Followed(g, executor, options.maxConcurrency, around, levels[..|levels| - 1])
         && Executed(levels) !! around.refused
         && (st == Refused ==> TurnedDown(g, around, levels))
         && (st != Refused ==>
               && st == WaitFailed && |levels| - 1 in around.badWaits
               && levels[|levels| - 1] != [] && Greedy(g, levels, |levels| - 1, options.maxConcurrency))
  }

  ghost predicate StatsOk(g: Edges, options: Options, around: Surroundings, stats: Stats, ran: set<TaskId>) {
    && ran <= g.Keys
    && stats.total == |g.Keys| && stats.canceled >= 0
    && stats.total == stats.succeeded + stats.failed + stats.canceled
    && stats.failed == |ran * around.throwing| && stats.succeeded == |ran - around.throwing|
    && (ran == g.Keys || (options.failFast && stats.failed > 0))
  }

  ghost predicate QuietSoFar(levels: seq<seq<TaskId>>, throwing: set<TaskId>) {
    forall i | 0 <= i < |levels| :: Elements(levels[i]) !! throwing
  }

  lemma QuietNext(levels: seq<seq<TaskId>>, level: seq<TaskId>, throwing: set<TaskId>)
    requires QuietSoFar(levels, throwing)
    ensures QuietUntilLast(levels + [level], throwing)
    ensures Threw(level, throwing) == 0 ==> QuietSoFar(levels + [level], throwing)
  {
    hide Elements;
    forall v | v in Elements(level) && v in throwing ensures Threw(level, throwing) > 0 {
      assert v in Elements(level) * throwing;
    }
  }

  // What the runner's counters and trace say after some levels.
  ghost predicate Progress(g: Edges, options: Options, around: Surroundings, levels: seq<seq<TaskId>>,
                           done: set<TaskId>, succeeded: nat, failed: nat, processed: nat)
  {
    && Schedule(g, levels) && Executed(levels) == done && done <= g.Keys
    && (forall i | 0 <= i < |levels| :: Fits(levels[i], options.maxConcurrency))
    && failed == |done * around.throwing| && succeeded == |done - around.throwing| && processed == |done|
    && (options.failFast ==> QuietUntilLast(levels, around.throwing))
  }

  lemma ProgressStart(g: Edges, options: Options, around: Surroundings)
    ensures Progress(g, options, around, [], {}, 0, 0, 0)
  {
  }

  lemma ProgressNext(g: Edges, options: Options, around: Surroundings, levels: seq<seq<TaskId>>,
                     done: set<TaskId>, succeeded: nat, failed: nat, processed: nat, level: seq<TaskId>, good: nat, bad: nat)
    requires bad == Threw(level, around.throwing) && good == Returned(level, around.throwing)
    requires Progress(g, options, around, levels, done, succeeded, failed, processed)
    requires options.failFast ==> QuietSoFar(levels, around.throwing)
    requires Startable(g, level, done) && Elements(level) <= g.Keys && Fits(level, options.maxConcurrency)
    ensures Progress(g, options, around, levels + [level], done + Elements(level),
                     succeeded + good, failed + bad, processed + |level|)
    ensures options.failFast && bad == 0 ==> QuietSoFar(levels + [level], around.throwing)
    ensures Executed(levels) == done && Executed(levels + [level]) == Executed(levels) + Elements(level)
  {
    hide Elements, Schedule, Executed, QuietUntilLast, QuietSoFar, Distinct, Fits;
    ScheduleNext(g, levels, level);
    CountsAdd(done, level, around.throwing, g);
    if options.failFast { QuietNext(levels, level, around.throwing); }
  }

  // The executor took every task of the level, and the wait for them succeeded.
  ghost predicate SeenThrough(executor: bool, level: seq<TaskId>, around: Surroundings, number: nat) {
    executor ==> Elements(level) !! around.refused && number !in around.badWaits
  }

  // The level is as large as the cap allows, or holds everything that could run.
  ghost predicate Maximal(g: Edges, level: seq<TaskId>, done: set<TaskId>, cap: nat) {
    || (cap > 0 && |level| == cap)
    || (forall v | v in g && Preds(g, v) <= done :: v in done || v in Elements(level))
  }

  lemma TookEverything(g: Edges, indegree: Counts, done: set<TaskId>, level: seq<TaskId>, cap: nat)
    requires Kahn(g, indegree, [], done, Elements(level))
    ensures Maximal(g, level, done, cap)
  {
    hide Missing, Preds, Closed, Distinct, Elements;
    forall v | v in g && Preds(g, v) <= done ensures v in done || v in Elements(level) {
      NoneMissing(g, v, done);
      assert v !in [];
    }
  }

  lemma FollowedStart(g: Edges, executor: bool, cap: nat, around: Surroundings)
    ensures Followed(g, executor, cap, around, [])
  {
  }

  lemma GreedyKept(g: Edges, levels: seq<seq<TaskId>>, level: seq<TaskId>, i: nat, cap: nat)
    requires i < |levels| && Greedy(g, levels, i, cap)
    ensures Greedy(g, levels + [level], i, cap)
  {
    hide Executed, Preds;
    assert (levels + [level])[..i] == levels[..i] && (levels + [level])[..i + 1] == levels[..i + 1];
  }

  lemma GreedyNow(g: Edges, levels: seq<seq<TaskId>>, level: seq<TaskId>, cap: nat)
    requires Maximal(g, level, Executed(levels), cap)
    requires Executed(levels + [level]) == Executed(levels) + Elements(level)
    ensures Greedy(g, levels + [level], |levels|, cap)
  {
    hide Executed, Preds, Elements;
    assert (levels + [level])[..|levels|] == levels && (levels + [level])[..|levels| + 1] == levels + [level];
  }

  lemma FollowedNext(g: Edges, executor: bool, cap: nat, around: Surroundings, levels: seq<seq<TaskId>>, level: seq<TaskId>)
    requires Followed(g, executor, cap, around, levels) && Fits(level, cap)
    requires Maximal(g, level, Executed(levels), cap) && SeenThrough(executor, level, around, |levels|)
    requires Executed(levels + [level]) == Executed(levels) + Elements(level)
    ensures Followed(g, executor, cap, around, levels + [level])
  {
    hide Greedy, Maximal, Executed, Elements;
    var longer := levels + [level];
    forall i | 0 <= i < |longer| ensures longer[i] != [] && Greedy(g, longer, i, cap) {
      if i < |levels| { GreedyKept(g, levels, level, i, cap); } else { GreedyNow(g, levels, level, cap); }
    }
  }

  // A level that the executor did not see through.
  ghost predicate Interrupted(st: Status, level: seq<TaskId>, ran: seq<TaskId>, around: Surroundings, number: nat) {
    && ran <= level && (forall v | v in ran :: v !in around.refused)
    && (st == Refused ==> |ran| < |level| && level[|ran|] in around.refused)
    && (st != Refused ==> ran == level && st == WaitFailed && number in around.badWaits)
  }

  lemma AbortedRun(g: Edges, options: Options, around: Surroundings, st: Status, levels: seq<seq<TaskId>>,
                   done: set<TaskId>, succeeded: nat, failed: nat, processed: nat, level: seq<TaskId>, ran: seq<TaskId>)
    requires Progress(g, options, around, levels, done, succeeded, failed, processed)
    requires Startable(g, level, done) && Fits(level, options.maxConcurrency) && Maximal(g, level, done, options.maxConcurrency)
    requires options.failFast ==> QuietSoFar(levels, around.throwing)
    requires Interrupted(st, level, ran, around, |levels|)
    requires Followed(g, true, options.maxConcurrency, around, levels)
    ensures RunOk(g, true, options, around, Aborted(st), levels + [ran])
  {
    hide Elements, Schedule, Executed, QuietUntilLast, QuietSoFar, Distinct, Greedy, TurnedDown;
    StartablePrefix(g, level, Executed(levels), |ran|);
    assert level[..|ran|] == ran;
    ScheduleNext(g, levels, ran);
    assert (levels + [ran])[..|levels + [ran]| - 1] == levels;
    if options.failFast { QuietNext(levels, ran, around.throwing); }
    InElements(ran);
    if st == Refused {
      RefusedInTurn(g, around, levels, level, ran);
    } else {
      GreedyNow(g, levels, level, options.maxConcurrency);
    }
  }

  lemma InElements<T>(s: seq<T>)
    ensures forall x :: x in Elements(s) <==> x in s
  {
  }

  lemma RefusedInTurn(g: Edges, around: Surroundings, levels: seq<seq<TaskId>>, level: seq<TaskId>, ran: seq<TaskId>)
    requires Startable(g, level, Executed(levels)) && ran <= level && |ran| < |level| && level[|ran|] in around.refused
    requires Executed(levels + [ran]) == Executed(levels) + Elements(ran)
    ensures TurnedDown(g, around, levels + [ran])
  {
    hide Executed, Preds;
    var v := level[|ran|];
    assert v in level && v in Elements(level) && v !in ran;
    assert (levels + [ran])[..|levels + [ran]| - 1] == levels;
    assert v in g && v in around.refused && v !in Executed(levels + [ran]);
  }

  lemma FinishedRun(g: Edges, executor: bool, options: Options, around: Surroundings, levels: seq<seq<TaskId>>,
                    done: set<TaskId>, succeeded: nat, failed: nat, processed: nat, total: nat)
    requires Progress(g, options, around, levels, done, succeeded, failed, processed) && total == |g.Keys|
    requires Followed(g, executor, options.maxConcurrency, around, levels)
    requires done == g.Keys || (options.failFast && failed > 0)
    ensures RunOk(g, executor, options, around, Finished(Stats(total, succeeded, failed, total - succeeded - failed)), levels)
    ensures done == g.Keys ==> processed == total
  {
    hide Elements, Schedule, Executed, QuietUntilLast, Followed;
    CountsSplit(done, around.throwing);
    SubsetSize(done, g.Keys);
  }

  // Without fail-fast nothing is canceled and every task runs, whatever its predecessors did;
  // a run in which nothing throws runs everything in either mode.
  lemma NothingCanceled(g: Edges, executor: bool, options: Options, around: Surroundings,
                        r: RunResult, levels: seq<seq<TaskId>>)
    requires RunOk(g, executor, options, around, r, levels) && r.Finished?
    requires !options.failFast || g.Keys !! around.throwing
    ensures Executed(levels) == g.Keys && r.stats.canceled == 0
  {
    hide Schedule, Executed;
    var ran := Executed(levels);
    CountsSplit(ran, around.throwing);
    if g.Keys !! around.throwing { assert ran * around.throwing == {}; }
  }

  // A refusal is not overlooked: unless a failure under fail-fast ends the run first, a refused
  // task aborts it. Without an executor no run is aborted.
  lemma RefusalAborts(g: Edges, executor: bool, options: Options, around: Surroundings,
                      r: RunResult, levels: seq<seq<TaskId>>, v: TaskId)
    requires RunOk(g, executor, options, around, r, levels) && v in g && v in around.refused
    requires !options.failFast || g.Keys !! around.throwing
    ensures executor ==> r.Aborted? && v !in Executed(levels)
    ensures !executor ==> r.Finished? && v in Executed(levels)
  {
    hide Schedule, Executed, Greedy;
    if r.Finished? { NothingCanceled(g, executor, options, around, r, levels); }
  }

  // Nor is a failed wait: it is the last thing a run does, and the run is aborted.
  lemma FailedWaitAborts(g: Edges, options: Options, around: Surroundings, r: RunResult, levels: seq<seq<TaskId>>, i: nat)
    requires RunOk(g, true, options, around, r, levels) && i < |levels| && i in around.badWaits
    ensures r.Aborted? && i == |levels| - 1 && (r.status == WaitFailed || TurnedDown(g, around, levels))
  {
    hide Schedule, Executed, Greedy, StatsOk, TurnedDown;
  }

  // No task runs twice.
  lemma {:induction false} RunsOnce(g: Edges, levels: seq<seq<TaskId>>, i: nat, k: nat, j: nat, l: nat)
    requires Schedule(g, levels) && i < |levels| && j < |levels| && k < |levels[i]| && l < |levels[j]|
    requires levels[i][k] == levels[j][l]
    ensures i == j && k == l
    decreases |levels|
  {
    var before, level := levels[..|levels| - 1], levels[|levels| - 1];
    if i < |before| && j < |before| {
      RunsOnce(g, before, i, k, j, l);
    } else if i < |before| {
      RanIn(before, i, k);
    } else if j < |before| {
      RanIn(before, j, l);
    }
  }

  lemma {:induction false} RanIn(levels: seq<seq<TaskId>>, i: nat, k: nat)
    requires i < |levels| && k < |levels[i]|
    ensures levels[i][k] in Executed(levels)
    decreases |levels|
  {
    if i < |levels| - 1 { RanIn(levels[..|levels| - 1], i, k); }
  }

  lemma {:induction false} RanWhere(levels: seq<seq<TaskId>>, v: TaskId) returns (i: nat, k: nat)
    requires v in Executed(levels)
    ensures i < |levels| && k < |levels[i]| && levels[i][k] == v
    decreases |levels|
  {
    var before, level := levels[..|levels| - 1], levels[|levels| - 1];
    if v in Executed(before) {
      i, k := RanWhere(before, v);
    } else {
      i := |levels| - 1;
      k :| 0 <= k < |level| && level[k] == v;
    }
  }

  // A task runs after everything it depends on has run, directly or through others.
  lemma {:induction false} RunsAfterPredecessors(g: Edges, levels: seq<seq<TaskId>>, i: nat, k: nat, b: TaskId)
    returns (j: nat, l: nat)
    requires Schedule(g, levels) && i < |levels| && k < |levels[i]| && Edge(g, b, levels[i][k])
    ensures j < i && l < |levels[j]| && levels[j][l] == b
    decreases |levels|
  {
    var before := levels[..|levels| - 1];
    if i < |before| {
      j, l := RunsAfterPredecessors(g, before, i, k, b);
    } else {
      assert b in Preds(g, levels[i][k]);
      j, l := RanWhere(before, b);
    }
  }

  lemma {:induction false} RunsAfterAncestors(g: Edges, levels: seq<seq<TaskId>>, p: seq<TaskId>, i: nat, k: nat)
    returns (j: nat, l: nat)
    requires Schedule(g, levels) && i < |levels| && k < |levels[i]|
    requires |p| >= 2 && Path(g, p) && p[|p| - 1] == levels[i][k]
    ensures j < i && l < |levels[j]| && levels[j][l] == p[0]
    decreases |p|
  {
    var n := |p| - 2;
    assert Edge(g, p[n], p[n + 1]);
    j, l := RunsAfterPredecessors(g, levels, i, k, p[n]);
    if n > 0 {
      var q := p[..n + 1];
      forall x, y | 0 <= x && y == x + 1 < |q| ensures Edge(g, q[x], q[y]) {
        assert Edge(g, p[x], p[y]);
      }
      j, l := RunsAfterAncestors(g, levels, q, j, l);
    }
  }

  // ---------------------------------------------------------------------------------------
  // The graph

  class SimpleTaskGraph {
    var nodes: map<TaskId, Node>
    var edges: Edges
    var nextId: TaskId

    // Every task has an entry in both maps.
    ghost predicate Shaped()
      reads this
    {
      nodes.Keys == edges.Keys
    }

    ghost predicate Valid()
      reads this
    {
      && Shaped() && Closed(edges)
      && (forall v | v in nodes :: 0 < v < nextId)
      && (forall v | v in edges :: v !in edges[v])
      && nextId > 0
    }

    constructor ()
      ensures Valid() && nodes == map[] && nextId == 1
    {
      nodes, edges, nextId := map[], map[], 1;
    }

    method AddTask(fnIsNull: bool, node: Node) returns (r: AddResult)
      requires Valid()
      modifies this
      ensures Valid()
      ensures fnIsNull ==> r == NotAdded(InvalidArgument) && unchanged(this)
      ensures !fnIsNull ==> r == Added(old(nextId)) && old(nextId) !in old(nodes) && nextId == old(nextId) + 1
      ensures !fnIsNull ==> nodes == old(nodes)[r.id := node] && edges == old(edges)[r.id := {}]
    {
      if fnIsNull { return NotAdded(InvalidArgument); }
      var id := nextId;
      nextId := nextId + 1;
      ghost var was := edges;
      nodes := nodes[id := node];
      if id !in edges { edges := edges[id := {}]; }
      assert forall b, a | Edge(edges, b, a) :: Edge(was, b, a);
      return Added(id);
    }

    method AddDependency(before: TaskId, after: TaskId) returns (st: Status)
      requires Valid()
      modifies this`edges
      ensures Valid()
      ensures st == (if before == after then InvalidArgument
                     else if before !in nodes || after !in nodes then NotFound else Ok)
      ensures edges.Keys == old(edges).Keys
      ensures forall b, a :: Edge(edges, b, a) <==> Edge(old(edges), b, a) || (st == Ok && b == before && a == after)
    {
      if before == after { return InvalidArgument; }
      if before !in nodes || after !in nodes { return NotFound; }
      ghost var was := edges;
      edges := edges[before := edges[before] + {after}];
      assert forall b, a :: Edge(edges, b, a) <==> Edge(was, b, a) || (b == before && a == after);
      return Ok;
    }

    // Stops at the first refused dependency and keeps those before it.
    method AddDependencies(after: TaskId, befores: seq<TaskId>) returns (st: Status, ghost kept: nat)
      requires Valid()
      modifies this`edges
      ensures Valid() && kept <= |befores|
      ensures st == Ok <==> kept == |befores|
      ensures kept < |befores| ==> befores[kept] == after || befores[kept] !in nodes || after !in nodes
      ensures kept < |befores| ==> st == if befores[kept] == after then InvalidArgument else NotFound
      ensures forall b, a :: Edge(edges, b, a) <==> Edge(old(edges), b, a) || (b in befores[..kept] && a == after)
    {
      kept := 0;
      for i := 0 to |befores|
        invariant Valid() && kept == i
        invariant forall b, a :: Edge(edges, b, a) <==> Edge(old(edges), b, a) || (b in befores[..i] && a == after)
      {
        assert befores[..i + 1] == befores[..i] + [befores[i]];
        var s := AddDependency(befores[i], after);
        if s != Ok { return s, i; }
        kept := i + 1;
      }
      return Ok, |befores|;
    }

    method Clear()
      modifies this
      ensures Valid() && nodes == map[] && edges == map[] && nextId == 1
    {
      nodes, edges, nextId := map[], map[], 1;
    }

    // Counts the edges out of b.
    method CountFrom(b: TaskId, counts: Counts, ghost sources: set<TaskId>) returns (ok: bool, indegree: Counts)
      requires b in edges && b !in sources && counts.Keys == edges.Keys && Tally(edges, counts, sources, b, edges[b])
      ensures ok <==> edges[b] <= edges.Keys
      ensures ok ==> indegree.Keys == edges.Keys && Tally(edges, indegree, sources, b, {})
    {
      hide Tally, Edge;
      indegree := counts;
      var rest := edges[b];
      while rest != {}
        invariant rest <= edges[b] && indegree.Keys == edges.Keys
        invariant Tally(edges, indegree, sources, b, rest)
        invariant edges[b] - rest <= edges.Keys
      {
        var dst := Choose(rest);
        if dst !in indegree { return false, indegree; }
        TallyStep(edges, indegree, sources, b, rest, dst);
        indegree := indegree[dst := indegree[dst] + 1];
        rest := rest - {dst};
      }
      return true, indegree;
    }

    // The number of predecessors of each task, unless an edge leads nowhere.
    method BuildIndegree() returns (st: Status, indegree: Counts)
      requires Shaped()
      ensures st == if Closed(edges) then Ok else InternalError
      ensures st == Ok ==> indegree.Keys == edges.Keys && forall v | v in edges :: indegree[v] == |Missing(edges, v, {})|
    {
      hide Totals, Tally, Missing, Closed;
      ClosedMeans(edges);
      indegree := map v | v in nodes :: 0;
      var todo := edges.Keys;
      ghost var sources: set<TaskId> := {};
      NothingSeen(edges, indegree);
      while todo != {}
        invariant todo <= edges.Keys && sources == edges.Keys - todo
        invariant indegree.Keys == edges.Keys
        invariant Totals(edges, indegree, sources)
        invariant forall b | b in sources :: edges[b] <= edges.Keys
      {
        var b := Choose(todo);
        TallyStart(edges, indegree, sources, b);
        var ok: bool;
        ok, indegree := CountFrom(b, indegree, sources);
        if !ok {
          return InternalError, indegree;
        }
        TallyEnd(edges, indegree, sources, b);
        todo, sources := todo - {b}, sources + {b};
      }
      assert sources == edges.Keys;
      AllSeen(edges, indegree);
      return Ok, indegree;
    }

    // The tasks that wait for nothing.
    method InitialReady(indegree: Counts) returns (ready: seq<TaskId>)
      ensures Queued(indegree, ready, {}, {})
    {
      ready := [];
      var todo := indegree.Keys;
      while todo != {}
        invariant todo <= indegree.Keys && Distinct(ready)
        invariant forall v :: v in ready <==> v in indegree && v !in todo && indegree[v] == 0
      {
        var v := Choose(todo);
        if indegree[v] == 0 { ready := ready + [v]; }
        todo := todo - {v};
      }
    }

    // Takes the edges out of id off the counts; tasks whose count reaches zero become ready.
    method Unlock(id: TaskId, counts: Counts, queue: seq<TaskId>, ghost done: set<TaskId>, ghost held: set<TaskId>)
      returns (indegree: Counts, ready: seq<TaskId>)
      requires Kahn(edges, counts, queue, done, held) && id in held
      ensures Kahn(edges, indegree, ready, done + {id}, held - {id})
    {
      hide Closed, Started, Queued, Counted;
      indegree, ready := counts, queue;
      RelaxStart(edges, indegree, ready, done, held, id);
      if id in edges {
        var rest := edges[id];
        while rest != {}
          invariant rest <= edges[id]
          invariant Relaxing(edges, indegree, ready, done, held, id, rest)
        {
          var dst := Choose(rest);
          RelaxOne(edges, indegree, ready, done, held, id, rest, dst);
          // The entry exists, and the guard d->second > 0 never fails.
          assert dst in indegree && indegree[dst] > 0;
          if indegree[dst] > 0 { indegree := indegree[dst := indegree[dst] - 1]; }
          if indegree[dst] == 0 { ready := ready + [dst]; }
          rest := rest - {dst};
        }
      }
      RelaxEnd(edges, indegree, ready, done, held, id);
    }

    // Ok exactly when no task depends on itself through others.
    method Validate() returns (st: Status)
      requires Shaped()
      ensures !Closed(edges) ==> st == InternalError
      ensures Closed(edges) ==> st == if Acyclic(edges) then Ok else InvalidArgument
    {
      hide Kahn, Closed, Acyclic, Missing, Queued, RanksDone, Below, Started;
      var indegree: Counts;
      st, indegree := BuildIndegree();
      if st != Ok { return; }
      var ready := InitialReady(indegree);
      KahnStart(edges, indegree, ready);

      var processed := 0;
      ghost var done: set<TaskId> := {};
      ghost var rank: map<TaskId, nat> := map[];
      NothingBelow();
      while ready != []
        invariant Kahn(edges, indegree, ready, done, {})
        invariant RanksDone(edges, done, rank) && Below(rank, processed)
        invariant processed == |done| && done <= edges.Keys
        decreases |edges.Keys - done|
      {
        var id := ready[0];
        TakeReady(edges, indegree, ready, done, {});
        ready := ready[1..];
        assert {} + {id} == {id};
        RankTaken(edges, indegree, ready, done, id, rank, processed);
        rank := rank[id := processed];
        processed := processed + 1;
        indegree, ready := Unlock(id, indegree, ready, done, {id});
        assert {id} - {id} == {};
        LessLeft(edges.Keys, done, id);
        done := done + {id};
      }
      Verdict(edges, indegree, done, rank);
      SameSize(nodes, edges);
      if processed != |nodes| { return InvalidArgument; }
      return Ok;
    }

    // Takes tasks off the ready queue, up to the cap.
    method CollectLevel(queue: seq<TaskId>, cap: nat, ghost indegree: Counts, ghost done: set<TaskId>)
      returns (level: seq<TaskId>, ready: seq<TaskId>)
      requires Kahn(edges, indegree, queue, done, {}) && queue != []
      ensures Kahn(edges, indegree, ready, done, Elements(level))
      ensures Fits(level, cap) && Distinct(level)
      ensures level + ready == queue && (ready == [] || (cap > 0 && |level| == cap))
    {
      hide Kahn;
      level, ready := [], queue;
      assert Elements(level) == {};
      while ready != [] && (cap == 0 || |level| < cap)
        invariant Kahn(edges, indegree, ready, done, Elements(level))
        invariant Distinct(level) && (cap == 0 || |level| <= cap)
        invariant level + ready == queue
        decreases |ready|
      {
        TakeReady(edges, indegree, ready, done, Elements(level));
        assert Elements(level + [ready[0]]) == Elements(level) + {ready[0]};
        assert ready[0] !in level;
        level, ready := level + [ready[0]], ready[1..];
      }
    }

    // Hands the tasks of a level to the executor and waits for them; ran are those accepted.
    method SubmitLevel(level: seq<TaskId>, around: Surroundings, number: nat) returns (st: Status, ran: seq<TaskId>)
      ensures st in {Ok, Refused, WaitFailed}
      ensures ran <= level && (forall v | v in ran :: v !in around.refused)
      ensures st == Refused ==> |ran| < |level| && level[|ran|] in around.refused
      ensures st != Refused ==> ran == level && (st == WaitFailed <==> number in around.badWaits)
    {
      ran := [];
      for i := 0 to |level|
        invariant ran == level[..i] && forall v | v in ran :: v !in around.refused
      {
        if level[i] in around.refused { return Refused, ran; }
        ran := ran + [level[i]];
      }
      if number in around.badWaits { return WaitFailed, ran; }
      return Ok, ran;
    }

    // Which bodies of a level returned and which threw.
    method CountLevel(level: seq<TaskId>, throwing: set<TaskId>) returns (succeeded: nat, failed: nat)
      requires Distinct(level)
      ensures failed == Threw(level, throwing) && succeeded == Returned(level, throwing)
    {
      hide Elements, Distinct;
      succeeded, failed := 0, 0;
      assert level[..0] == [];
      NoElements();
      for i := 0 to |level|
        invariant failed == |Elements(level[..i]) * throwing| && succeeded == |Elements(level[..i]) - throwing|
      {
        CountNext(level, i, throwing);
        if level[i] in throwing { failed := failed + 1; } else { succeeded := succeeded + 1; }
      }
      assert level[..|level|] == level;
    }

    method UnlockLevel(level: seq<TaskId>, counts: Counts, queue: seq<TaskId>, ghost done: set<TaskId>)
      returns (indegree: Counts, ready: seq<TaskId>)
      requires Distinct(level) && Kahn(edges, counts, queue, done, Elements(level))
      ensures Kahn(edges, indegree, ready, done + Elements(level), {})
    {
      hide Kahn, Elements;
      indegree, ready := counts, queue;
      assert level[0..] == level && level[..0] == [] && level[|level|..] == [];
      NoElements();
      assert done + {} == done;
      for i := 0 to |level|
        invariant Kahn(edges, indegree, ready, done + Elements(level[..i]), Elements(level[i..]))
      {
        FirstElement(level, i);
        LastElement(level, i);
        indegree, ready := Unlock(level[i], indegree, ready, done + Elements(level[..i]), Elements(level[i..]));
        assert done + Elements(level[..i]) + {level[i]} == done + Elements(level[..i + 1]);
      }
      assert level[..|level|] == level;
    }

    method RunInternal(executor: bool, options: Options, around: Surroundings) returns (r: RunResult, levels: seq<seq<TaskId>>)
      requires Shaped()
      ensures !Closed(edges) ==> r == Aborted(InternalError) && levels == []
      ensures Closed(edges) && !Acyclic(edges) ==> r == Aborted(InvalidArgument) && levels == []
      ensures Closed(edges) && Acyclic(edges) ==> RunOk(edges, executor, options, around, r, levels)
    {
      hide Closed, Acyclic, RunOk;
      var st := Validate();
      if st != Ok { return Aborted(st), []; }
      r, levels := RunLevels(executor, options, around);
    }

    method NodeCount() returns (n: nat)
      requires Shaped()
      ensures n == |edges.Keys|
    {
      SameSize(nodes, edges);
      return |nodes|;
    }

    // The second count cannot fail.
    method Begin() returns (indegree: Counts, ready: seq<TaskId>)
      requires Shaped() && Closed(edges)
      ensures Kahn(edges, indegree, ready, {}, {})
    {
      hide Kahn, Closed, Missing, Queued, RanksDone;
      var st;
      st, indegree := BuildIndegree();
      assert st == Ok;
      ready := InitialReady(indegree);
      KahnStart(edges, indegree, ready);
    }

    // The run proper, after validation.
    method RunLevels(executor: bool, options: Options, around: Surroundings) returns (r: RunResult, levels: seq<seq<TaskId>>)
      requires Shaped() && Closed(edges) && Acyclic(edges)
      ensures RunOk(edges, executor, options, around, r, levels)
    {
      hide Kahn, Left, Closed, Acyclic, Elements, QuietUntilLast, QuietSoFar, Threw, Returned, Startable, Interrupted, Distinct, Progress, RunOk, Fits, Followed, Maximal, SeenThrough, Executed;
      levels := [];
      var total := NodeCount();
      var indegree, ready := Begin();
      var succeeded: nat, failed: nat, processed: nat := 0, 0, 0;
      ghost var done: set<TaskId> := {};
      ProgressStart(edges, options, around);
      NothingYet(around.throwing);
      FollowedStart(edges, executor, options.maxConcurrency, around);
      while ready != []
        invariant Kahn(edges, indegree, ready, done, {})
        invariant Followed(edges, executor, options.maxConcurrency, around, levels)
        invariant Progress(edges, options, around, levels, done, succeeded, failed, processed)
        invariant options.failFast ==> QuietSoFar(levels, around.throwing)
        decreases Left(edges, done)
      {
        var st, level, ran, good, bad;
        st, level, ready, ran, good, bad := NextLevel(executor, options.maxConcurrency, around, ready, |levels|, indegree, done);
        if st != Ok {
          AbortedRun(edges, options, around, st, levels, done, succeeded, failed, processed, level, ran);
          return Aborted(st), levels + [ran];
        }
        ProgressNext(edges, options, around, levels, done, succeeded, failed, processed, level, good, bad);
        FollowedNext(edges, executor, options.maxConcurrency, around, levels, level);
        succeeded, failed, processed, levels := succeeded + good, failed + bad, processed + |level|, levels + [level];
        if bad > 0 && options.failFast {
          FinishedRun(edges, executor, options, around, levels, done + Elements(level), succeeded, failed, processed, total);
          return Finished(Stats(total, succeeded, failed, total - succeeded - failed)), levels;
        }
        indegree, ready := UnlockLevel(level, indegree, ready, done);
        Shrinks(edges, done, level, options.maxConcurrency);
        done := done + Elements(level);
      }
      AllDone(edges, indegree, done);
      FinishedRun(edges, executor, options, around, levels, done, succeeded, failed, processed, total);
      assert processed == total;
      return Finished(Stats(total, succeeded, failed, total - succeeded - failed)), levels;
    }

    // Takes the next level off the ready queue and runs it, inline or through an executor.
    method NextLevel(executor: bool, cap: nat, around: Surroundings, queue: seq<TaskId>, number: nat,
                     ghost indegree: Counts, ghost done: set<TaskId>)
      returns (st: Status, level: seq<TaskId>, ready: seq<TaskId>, ran: seq<TaskId>, good: nat, bad: nat)
      requires Kahn(edges, indegree, queue, done, {}) && queue != []
      ensures Kahn(edges, indegree, ready, done, Elements(level)) && Distinct(level) && Fits(level, cap)
      ensures Startable(edges, level, done) && Elements(level) <= edges.Keys && Elements(level) !! done
      ensures st == Ok ==> bad == Threw(level, around.throwing) && good == Returned(level, around.throwing)
      ensures st == Ok ==> SeenThrough(executor, level, around, number)
      ensures st != Ok ==> executor && Interrupted(st, level, ran, around, number)
      ensures Maximal(edges, level, done, cap)
    {
      hide Kahn, Elements, Distinct, Fits, Startable, Threw, Returned;
      level, ready := CollectLevel(queue, cap, indegree, done);
      LevelStartable(edges, indegree, ready, done, level);
      InElements(level);
      if ready == [] { TookEverything(edges, indegree, done, level, cap); }
      st, ran, good, bad := Ok, level, 0, 0;
      if executor { st, ran := SubmitLevel(level, around, number); }
      if st == Ok { good, bad := CountLevel(level, around.throwing); }
    }
  }
}
