/**
 What `add` and `try_get` of the free list achieve: exactly, when no other thread steps
 meanwhile, and under any interleaving for a `try_get` that comes back with nothing.
 */
module FreeListAnswers {
  import opened Sums
  import opened FreeList

  // ---------------------------------------------------------------------------------------
  // One thread alone

  ghost predicate Quiet(s: State) {
    forall t | t in s.pc :: s.pc[t] == Idle
  }

  // k steps of t lead from s to s'; strictly between them t is not idle.
  ghost predicate Alone(s: State, t: Tid, c: Call, k: nat, s': State)
    decreases k
  {
    && k > 0 && CanCall(s, t, c)
    && var m := Exec(s, t, c);
       if k == 1 then s' == m else m.Pc(t) != Idle && Alone(m, t, c, k - 1, s')
  }

  // On a quiet list the head node carries the list's own reference and nothing else; a node
  // with an owner carries none.
  lemma QuietWords(s: State, n: Node)
    requires Reachable(s) && Quiet(s)
    ensures s.head == Ref(n) ==> s.Refs(n) == 1 && forall t :: n !in s.Held(t)
    ensures (exists t :: n in s.Held(t)) ==> s.Refs(n) == 0 && s.head != Ref(n)
  {
    hide Reachable, Words, Base;
    var a := ReachableInv(s);
    QuiescentRole(s, a, n);
    assert NodeInv(s, a, n);
    assert Holders(s, n) == {};
    assert Words(a.Role(n), s.Refs(n), 0);
    WordsOf(a.Role(n), s.Refs(n));
    if s.head == Ref(n) { assert n in a.list; }
  }

  lemma WordsOf(role: Role, r: Word)
    requires Words(role, r, 0)
    ensures role == Listed ==> r == 1
    ensures role.Owned? ==> r == 0
  {
  }

  lemma {:induction false} AloneOn(s: State, t: Tid, c: Call, j: nat, m: State, k: nat, s': State)
    requires Alone(s, t, c, j, m) && m.Pc(t) != Idle && Alone(m, t, c, k, s')
    ensures Alone(s, t, c, j + k, s')
    decreases j
  {
    hide Exec;
    if j > 1 { AloneOn(Exec(s, t, c), t, c, j - 1, m, k, s'); }
  }

  // What t's steps may have changed besides the words of node f.
  ghost predicate Changes(s: State, t: Tid, f: Node, s': State, pc: Pc, held: set<Node>, head: Ptr) {
    && s'.pc == s.pc[t := pc] && s'.head == head && s'.Held(t) == held
    && (forall u | u != t :: s'.Held(u) == s.Held(u))
    && (forall m | m != f :: s'.Next(m) == s.Next(m))
  }

  lemma OneStep(s: State, t: Tid, c: Call, f: Node, e: Effect) returns (s': State)
    requires CanCall(s, t, c) && f == Focus(s.Pc(t), c) && e == EffectOf(s, t, c)
    ensures Alone(s, t, c, 1, s') && Changes(s, t, f, s', e.pc, e.held, e.head)
    ensures s'.Refs(f) == e.refs && s'.Next(f) == e.next && s'.Pc(t) == e.pc
    ensures forall m | m != f :: s'.Refs(m) == s.Refs(m)
  {
    hide Local, Focus;
    s' := Exec(s, t, c);
  }

  // try_get alone on a quiet list: null from the empty list; otherwise the head node goes to
  // the caller and the list goes on behind it.
  lemma TryGetAnswers(s: State, t: Tid, list: seq<Node>) returns (k: nat, s': State)
    requires Reachable(s) && Quiet(s) && t in s.pc && Chain(s.head, list, s)
    ensures Alone(s, t, TryGet, k, s') && Quiet(s')
    ensures list == [] ==> s'.Held(t) == s.Held(t)
    ensures list != [] ==> list[0] !in s.Held(t) && s'.Held(t) == s.Held(t) + {list[0]}
    ensures forall u | u != t :: s'.Held(u) == s.Held(u)
    ensures Chain(s'.head, if list == [] then [] else list[1..], s')
  {
    hide Reachable, Alone;
    var s1 := OneStep(s, t, TryGet, 0, EffectOf(s, t, TryGet));
    var s2 := OneStep(s1, t, TryGet, 0, EffectOf(s1, t, TryGet));
    AloneOn(s, t, TryGet, 1, s1, 1, s2);
    if list == [] {
      k, s' := 2, s2;
    } else {
      QuietWords(s, list[0]);
      var j;
      j, s' := TakeHead(s2, t, list[0]);
      AloneOn(s, t, TryGet, 2, s2, j, s');
      k := 2 + j;
      ChainFrame(s.Next(list[0]), list[1..], s, s');
    }
  }

  lemma TakeHead(s: State, t: Tid, n: Node) returns (k: nat, s': State)
    requires t in s.pc && s.Pc(t) == GetRefs(n) && s.head == Ref(n) && s.Refs(n) == 1
    ensures Alone(s, t, TryGet, k, s')
    ensures Changes(s, t, n, s', Idle, s.Held(t) + {n}, s.Next(n)) && s'.Next(n) == s.Next(n)
  {
    hide Alone;
    var s1 := OneStep(s, t, TryGet, n, Effect(GetCas(n, 1), s.Held(t), s.head, 1, s.Next(n)));
    var s2 := OneStep(s1, t, TryGet, n, Effect(GetNext(n), s.Held(t), s.head, 2, s.Next(n)));
    AloneOn(s, t, TryGet, 1, s1, 1, s2);
    var s3 := OneStep(s2, t, TryGet, n, Effect(GetPop(n, s.Next(n)), s.Held(t), s.head, 2, s.Next(n)));
    AloneOn(s, t, TryGet, 2, s2, 1, s3);
    var s4 := OneStep(s3, t, TryGet, n, Effect(GetRelease(n), s.Held(t), s.Next(n), 2, s.Next(n)));
    AloneOn(s, t, TryGet, 3, s3, 1, s4);
    s' := OneStep(s4, t, TryGet, n, Effect(Idle, s.Held(t) + {n}, s.Next(n), 0, s.Next(n)));
    AloneOn(s, t, TryGet, 4, s4, 1, s');
    k := 5;
  }

  lemma {:induction false} SameChain(h: Ptr, list: seq<Node>, other: seq<Node>, s: State)
    requires Chain(h, list, s) && Chain(h, other, s)
    ensures list == other
    decreases |list|
  {
    if list != [] && other != [] { SameChain(s.Next(list[0]), list[1..], other[1..], s); }
  }

  lemma OwnedIsNotListed(s: State, t: Tid, n: Node, list: seq<Node>)
    requires Reachable(s) && n in s.Held(t) && Chain(s.head, list, s)
    ensures n !in list
  {
    hide Reachable, NodeInv;
    var a := ReachableInv(s);
    SameChain(s.head, list, a.list, s);
    assert ThreadInv(s, a, t);
  }

  // add alone on a quiet list: the node leaves its caller and becomes the head, in front of
  // everything that was listed.
  lemma AddAnswers(s: State, t: Tid, n: Node, list: seq<Node>) returns (k: nat, s': State)
    requires Reachable(s) && Quiet(s) && t in s.pc && n in s.Held(t) && Chain(s.head, list, s)
    ensures Alone(s, t, Add(n), k, s') && Quiet(s')
    ensures s'.Held(t) == s.Held(t) - {n} && forall u | u != t :: s'.Held(u) == s.Held(u)
    ensures Chain(s'.head, [n] + list, s')
  {
    hide Reachable, Alone;
    var c := Add(n);
    OwnedIsNotListed(s, t, n, list);
    QuietWords(s, n);
    var s1 := OneStep(s, t, c, n, Effect(AddMark(n), s.Held(t) - {n}, s.head, 0, s.Next(n)));
    var s2 := OneStep(s1, t, c, n, Effect(LinkLoad(n, Leave), s.Held(t) - {n}, s.head, SHOULD_BE_ON_FREELIST, s.Next(n)));
    AloneOn(s, t, c, 1, s1, 1, s2);
    var j;
    j, s' := Link(s2, t, n, c);
    AloneOn(s, t, c, 2, s2, j, s');
    k := j + 2;
    ChainFrame(s.head, list, s, s');
    assert ([n] + list)[1..] == list;
  }

  lemma Link(s: State, t: Tid, n: Node, c: Call) returns (k: nat, s': State)
    requires t in s.pc && s.Pc(t) == LinkLoad(n, Leave)
    ensures Alone(s, t, c, k, s')
    ensures Changes(s, t, n, s', Idle, s.Held(t), Ref(n)) && s'.Next(n) == s.head
  {
    hide Alone;
    var r, own, h := s.Refs(n), s.Held(t), s.head;
    var s1 := OneStep(s, t, c, n, Effect(LinkNext(n, h, Leave), own, h, r, s.Next(n)));
    var s2 := OneStep(s1, t, c, n, Effect(LinkRefs(n, h, Leave), own, h, r, h));
    AloneOn(s, t, c, 1, s1, 1, s2);
    var s3 := OneStep(s2, t, c, n, Effect(LinkCas(n, h, Leave), own, h, 1, h));
    AloneOn(s, t, c, 2, s2, 1, s3);
    s' := OneStep(s3, t, c, n, Effect(Idle, own, Ref(n), 1, h));
    AloneOn(s, t, c, 3, s3, 1, s');
    k := 4;
  }

  // ---------------------------------------------------------------------------------------
  // Coming back with nothing, under any interleaving

  // In a try_get, possibly linking a node on the way.
  predicate Getting(pc: Pc) {
    || pc.GetLoad? || pc.GetRefs? || pc.GetCas? || pc.GetNext? || pc.GetPop? || pc.GetRelease? || pc.GetBackoff?
    || ((Preparing(pc) || pc.LinkCas? || pc.LinkUndo?) && pc.cont.Resume?)
  }

  // The run `events` from s is the rest of a try_get of t, under whatever the other threads
  // do, and ends with its last step, which obtained no node.
  ghost predicate EndsEmptyHanded(s: State, events: seq<Event>, t: Tid)
    decreases |events|
  {
    && events != [] && Getting(s.Pc(t)) && CanCall(s, events[0].t, events[0].call)
    && var s' := Exec(s, events[0].t, events[0].call);
       if |events| == 1 then s'.Pc(t) == Idle && !s.Pc(t).GetRelease?
       else s'.Pc(t) != Idle && EndsEmptyHanded(s', events[1..], t)
  }

  ghost predicate WasEmpty(s: State, events: seq<Event>)
    decreases |events|
  {
    s.head == Null || (events != [] && WasEmpty(Exec(s, events[0].t, events[0].call), events[1..]))
  }

  // The thread has already read a null head.
  predicate RemembersNull(pc: Pc) {
    || (pc.GetBackoff? && pc.head == Null)
    || ((Preparing(pc) || pc.LinkCas? || pc.LinkUndo?) && pc.cont == Resume(Null))
  }

  // A step inside try_get stays in it, takes a node, or gives up on a null head.
  lemma GettingLocal(pc: Pc, c: Call, own: set<Node>, h: Ptr, r: Word, x: Ptr)
    requires Getting(pc)
    ensures var q := Local(pc, c, own, h, r, x).pc;
      && (q != Idle ==> Getting(q))
      && (q == Idle && !pc.GetRelease? ==> h == Null || RemembersNull(pc))
      && (RemembersNull(q) ==> h == Null || RemembersNull(pc))
  {
  }

  lemma GettingStep(s: State, t: Tid, u: Tid, c: Call)
    requires Getting(s.Pc(t))
    ensures var pc := Exec(s, u, c).Pc(t);
      && (pc != Idle ==> Getting(pc))
      && (pc == Idle && !s.Pc(t).GetRelease? ==> s.head == Null || RemembersNull(s.Pc(t)))
      && (RemembersNull(pc) ==> s.head == Null || RemembersNull(s.Pc(t)))
  {
    hide Local, RemembersNull;
    var f := Focus(s.Pc(t), c);
    GettingLocal(s.Pc(t), c, s.Held(t), s.head, s.Refs(f), s.Next(f));
  }

  lemma {:induction false} EmptyHanded(s: State, events: seq<Event>, t: Tid)
    requires EndsEmptyHanded(s, events, t)
    ensures WasEmpty(s, events) || RemembersNull(s.Pc(t))
    decreases |events|
  {
    hide Exec;
    GettingStep(s, t, events[0].t, events[0].call);
    if |events| > 1 {
      EmptyHanded(Exec(s, events[0].t, events[0].call), events[1..], t);
    }
  }

  // A try_get comes back with nothing only if the list was empty at some moment during it.
  lemma NullMeansEmpty(s: State, events: seq<Event>, t: Tid)
    requires s.Pc(t) == GetLoad && EndsEmptyHanded(s, events, t)
    ensures WasEmpty(s, events)
  {
    EmptyHanded(s, events, t);
  }
}
