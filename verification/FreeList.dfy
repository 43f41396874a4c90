/**
 The reference-counted CAS free list of the lock-free queue.

 Every access to an atomic variable is one step. A state is what the threads share (the head
 pointer and each node's `freeListRefs` and `freeListNext`) together with every thread's
 program counter and the set of nodes its caller currently owns. `Exec` performs one step of
 one thread; a run is any interleaving of such steps.
 */
module FreeList {
  import opened Sums

  type Tid = nat
  type Node = nat

  datatype Ptr = Null | Ref(node: Node)

  // The flag bit and the modulus of the 32-bit word `freeListRefs`.
  const SHOULD_BE_ON_FREELIST: nat := 0x8000_0000
  const WORD: nat := 0x1_0000_0000

  type Word = r: nat | r < WORD

  // 32-bit addition of a word and an increment smaller than the modulus.
  function Wrap(v: int): Word
    requires 0 - WORD <= v < 2 * WORD
  {
    if v < 0 then v + WORD else if v >= WORD then v - WORD else v
  }

  // The word without its flag bit (`& REFS_MASK`).
  function Count(r: Word): nat {
    if r >= SHOULD_BE_ON_FREELIST then r - SHOULD_BE_ON_FREELIST else r
  }

  // What a thread does when `add_knowing_refcount_is_zero` returns: leave the operation, or go
  // on with the loop of `try_get` holding the head value its failed CAS produced.
  datatype Cont = Leave | Resume(head: Ptr)

  datatype Pc =
    | Idle
    | AddMark(node: Node)                              // add: fetch_add of the flag
    | LinkLoad(node: Node, cont: Cont)                 // load of freeListHead
    | LinkNext(node: Node, head: Ptr, cont: Cont)      // store of freeListNext
    | LinkRefs(node: Node, head: Ptr, cont: Cont)      // store of 1 to freeListRefs
    | LinkCas(node: Node, head: Ptr, cont: Cont)       // CAS of freeListHead
    | LinkUndo(node: Node, head: Ptr, cont: Cont)      // fetch_add of flag - 1
    | GetLoad                                          // try_get: load of freeListHead
    | GetRefs(node: Node)                              // load of freeListRefs
    | GetCas(node: Node, refs: Word)                    // CAS of refs to refs + 1
    | GetNext(node: Node)                              // load of freeListNext
    | GetPop(node: Node, next: Ptr)                    // CAS of freeListHead
    | GetRelease(node: Node)                           // fetch_sub of 2, node obtained
    | GetBackoff(node: Node, head: Ptr)                // fetch_sub of 1

  // A node absent from a map has its constructor's values: no references, null next pointer.
  datatype State = State(
    head: Ptr,
    next: map<Node, Ptr>,
    refs: map<Node, Word>,
    pc: map<Tid, Pc>,
    held: map<Tid, set<Node>>)
  {
    function Next(n: Node): Ptr { if n in next then next[n] else Null }
    function Refs(n: Node): Word { if n in refs then refs[n] else 0 }
    function Pc(t: Tid): Pc { if t in pc then pc[t] else Idle }
    function Held(t: Tid): set<Node> { if t in held then held[t] else {} }
  }

  // What the caller of an idle thread asks for next.
  datatype Call = Stay | Add(node: Node) | TryGet

  // ---------------------------------------------------------------------------------------
  // Steps

  // The top of `try_get`'s loop: a null head ends the operation.
  function LoopOn(h: Ptr): Pc {
    match h case Null => Idle case Ref(n) => GetRefs(n)
  }

  function Continue(k: Cont): Pc {
    match k case Leave => Idle case Resume(h) => LoopOn(h)
  }

  // The node a step works on.
  function Focus(pc: Pc, c: Call): Node {
    match pc
    case Idle => if c.Add? then c.node else 0
    case GetLoad => 0
    case _ => pc.node
  }

  // What a step leaves behind: the thread's next program counter, its caller's nodes, the
  // head, and the two words of the node in focus.
  datatype Effect = Effect(pc: Pc, held: set<Node>, head: Ptr, refs: Word, next: Ptr)

  // One atomic step, given what it can read: the head h, the focus' words r and x, and the
  // nodes its caller owns.
  function Local(pc: Pc, c: Call, own: set<Node>, h: Ptr, r: Word, x: Ptr): Effect {
    var same := Effect(pc, own, h, r, x);
    match pc
    case Idle =>
      (match c
       case Stay => same
       case Add(n) => same.(pc := AddMark(n), held := own - {n})
       case TryGet => same.(pc := GetLoad))
    case AddMark(n) =>
      same.(refs := Wrap(r + SHOULD_BE_ON_FREELIST),
            pc := if r == 0 then LinkLoad(n, Leave) else Idle)
    case LinkLoad(n, k) => same.(pc := LinkNext(n, h, k))
    case LinkNext(n, l, k) => same.(next := l, pc := LinkRefs(n, l, k))
    case LinkRefs(n, l, k) => same.(refs := 1, pc := LinkCas(n, l, k))
    case LinkCas(n, l, k) =>
      if h == l then same.(head := Ref(n), pc := Continue(k))
      else same.(pc := LinkUndo(n, h, k))
    case LinkUndo(n, l, k) =>
      same.(refs := Wrap(r + SHOULD_BE_ON_FREELIST - 1),
            pc := if r == 1 then LinkNext(n, l, k) else Continue(k))
    case GetLoad => same.(pc := LoopOn(h))
    case GetRefs(n) =>
      same.(pc := if Count(r) == 0 then GetLoad else GetCas(n, r))
    case GetCas(n, seen) =>
      if r == seen then same.(refs := Wrap(r + 1), pc := GetNext(n))
      else same.(pc := GetLoad)
    case GetNext(n) => same.(pc := GetPop(n, x))
    case GetPop(n, y) =>
      if h == Ref(n) then same.(head := y, pc := GetRelease(n))
      else same.(pc := GetBackoff(n, h))
    case GetRelease(n) =>
      same.(refs := Wrap(r - 2), pc := Idle, held := own + {n})
    case GetBackoff(n, l) =>
      same.(refs := Wrap(r - 1),
            pc := if r == SHOULD_BE_ON_FREELIST + 1 then LinkLoad(n, Resume(l)) else LoopOn(l))
  }

  function EffectOf(s: State, t: Tid, c: Call): Effect {
    var f := Focus(s.Pc(t), c);
    Local(s.Pc(t), c, s.Held(t), s.head, s.Refs(f), s.Next(f))
  }

  function Apply(s: State, t: Tid, f: Node, e: Effect): State {
    State(e.head, s.next[f := e.next], s.refs[f := e.refs], s.pc[t := e.pc], s.held[t := e.held])
  }

  // `add` is called only by the owner of the node.
  predicate CanCall(s: State, t: Tid, c: Call) {
    t in s.pc && (s.Pc(t).Idle? && c.Add? ==> c.node in s.Held(t))
  }

  function Exec(s: State, t: Tid, c: Call): State {
    Apply(s, t, Focus(s.Pc(t), c), EffectOf(s, t, c))
  }

  // ---------------------------------------------------------------------------------------
  // The invariant

  // A counted reference to n.
  predicate Holds(pc: Pc, n: Node) {
    (pc.GetNext? || pc.GetPop? || pc.GetRelease? || pc.GetBackoff?) && pc.node == n
  }

  function Holders(s: State, n: Node): set<Tid> {
    set t | t in s.pc && Holds(s.pc[t], n)
  }

  // A linking thread that has not yet stored 1 to freeListRefs.
  predicate Preparing(pc: Pc) {
    pc.LinkLoad? || pc.LinkNext? || pc.LinkRefs?
  }

  // A thread in charge of n beyond its caller's own nodes: handing n in, linking it, or
  // having just unlinked it.
  predicate InCharge(pc: Pc, n: Node) {
    (pc.AddMark? || Preparing(pc) || pc.LinkCas? || pc.LinkUndo? || pc.GetRelease?) && pc.node == n
  }

  // Where a node is: unknown to the list so far; on the list; flagged and left to the last
  // thread referencing it; owned by a caller; or being linked or unlinked by one thread, with
  // the flag still set or with the list's own reference counted in.
  datatype Role = Absent | Listed | Waiting | Owned(t: Tid) | Flagged(t: Tid) | Counted(t: Tid) {
    predicate By(u: Tid) { (Owned? || Flagged? || Counted?) && t == u }
  }

  // The bookkeeping of the proof: the nodes on the list in order, and each node's role.
  datatype Aux = Aux(list: seq<Node>, role: map<Node, Role>) {
    function Role(n: Node): Role { if n in role then role[n] else Absent }
  }

  // What freeListRefs holds besides the number of counted references.
  function Base(role: Role): nat {
    match role
    case Listed => 1
    case Counted(_) => 1
    case Waiting => SHOULD_BE_ON_FREELIST
    case Flagged(_) => SHOULD_BE_ON_FREELIST
    case _ => 0
  }

  // The role of the node a thread is in charge of.
  function Duty(pc: Pc, t: Tid): Role {
    if pc.AddMark? then Owned(t) else if Preparing(pc) then Flagged(t) else Counted(t)
  }

  // r is the node's freeListRefs, k the number of counted references to it.
  ghost predicate Words(role: Role, r: Word, k: nat) {
    && r == Base(role) + k
    && (role == Waiting ==> k > 0)
    && (role.Flagged? || role == Absent ==> k == 0)
  }

  // The thread named in a role owns the node or is in charge of it.
  ghost predicate Kept(role: Role, n: Node, pc: Pc, own: set<Node>) {
    && (role.Owned? ==> n in own || (pc.AddMark? && pc.node == n))
    && (role.Flagged? || role.Counted? ==> InCharge(pc, n) && Duty(pc, role.t) == role)
  }

  ghost predicate NodeInv(s: State, a: Aux, n: Node) {
    var r := a.Role(n);
    && Words(r, s.Refs(n), |Holders(s, n)|)
    && (r.Owned? || r.Flagged? || r.Counted? ==> r.t in s.pc && Kept(r, n, s.Pc(r.t), s.Held(r.t)))
  }

  ghost predicate ThreadInv(s: State, a: Aux, t: Tid) {
    var pc := s.Pc(t);
    && (forall n | n in s.Held(t) :: a.Role(n) == Owned(t) && !InCharge(pc, n))
    && (forall n | InCharge(pc, n) :: a.Role(n) == Duty(pc, t))
    && (pc.LinkRefs? || pc.LinkCas? ==> s.Next(pc.node) == pc.head)
    && (pc.GetPop? ==> s.Next(pc.node) == pc.next)
    && (pc.GetCas? ==> Count(pc.refs) != 0)
  }

  ghost predicate Chain(h: Ptr, list: seq<Node>, s: State)
    decreases |list|
  {
    if list == [] then h == Null
    else h == Ref(list[0]) && Chain(s.Next(list[0]), list[1..], s)
  }

  ghost predicate ListInv(s: State, a: Aux) {
    && Chain(s.head, a.list, s)
    && Distinct(a.list)
    && (forall n :: n in a.list <==> a.Role(n) == Listed)
  }

  ghost predicate Inv(s: State, a: Aux) {
    && |s.pc| + 1 < SHOULD_BE_ON_FREELIST
    && ListInv(s, a)
    && (forall n :: NodeInv(s, a, n))
    && (forall t :: ThreadInv(s, a, t))
  }

  // ---------------------------------------------------------------------------------------
  // Preservation

  // The focus' role after the step.
  function NewRole(role: Role, t: Tid, pc: Pc, h: Ptr, r: Word): Role {
    match pc
    case AddMark(_) => if r == 0 then Flagged(t) else Waiting
    case LinkRefs(_, _, _) => Counted(t)
    case LinkCas(_, l, _) => if h == l then Listed else role
    case LinkUndo(_, _, _) => if r == 1 then Flagged(t) else Waiting
    case GetPop(n, _) => if h == Ref(n) then Counted(t) else role
    case GetRelease(_) => Owned(t)
    case GetBackoff(_, _) => if r == SHOULD_BE_ON_FREELIST + 1 then Flagged(t) else role
    case _ => role
  }

  function NewList(list: seq<Node>, pc: Pc, h: Ptr): seq<Node> {
    if pc.LinkCas? && h == pc.head then [pc.node] + list
    else if pc.GetPop? && h == Ref(pc.node) && list != [] then list[1..]
    else list
  }

  ghost function Track(s: State, a: Aux, t: Tid, c: Call): Aux {
    var f := Focus(s.Pc(t), c);
    Aux(NewList(a.list, s.Pc(t), s.head),
        a.role[f := NewRole(a.Role(f), t, s.Pc(t), s.head, s.Refs(f))])
  }

  lemma HoldersBounded(s: State, n: Node)
    ensures Holders(s, n) <= s.pc.Keys
    ensures |Holders(s, n)| <= |s.pc|
  {
    SubsetSize(Holders(s, n), s.pc.Keys);
  }

  // A step makes its thread a holder of the focus or not, and touches no other reference.
  lemma HoldersApply(s: State, t: Tid, f: Node, e: Effect, n: Node)
    requires t in s.pc
    ensures Holders(Apply(s, t, f, e), n) ==
            if Holds(e.pc, n) then Holders(s, n) + {t} else Holders(s, n) - {t}
    ensures t in Holders(s, n) <==> Holds(s.Pc(t), n)
  {
    var s' := Apply(s, t, f, e);
    forall u ensures u in Holders(s', n) <==> u in (if Holds(e.pc, n) then Holders(s, n) + {t} else Holders(s, n) - {t}) {
      assert u in s'.pc <==> u in s.pc;
    }
  }

  // Neither the old nor the new program counter is tied to a node other than the focus.
  lemma OffFocus(s: State, t: Tid, c: Call, n: Node)
    requires n != Focus(s.Pc(t), c)
    ensures var q := EffectOf(s, t, c).pc;
      !Holds(s.Pc(t), n) && !InCharge(s.Pc(t), n) && !Holds(q, n) && !InCharge(q, n)
    ensures n in EffectOf(s, t, c).held <==> n in s.Held(t)
  {
  }

  lemma NodeFrame(s: State, a: Aux, a': Aux, t: Tid, f: Node, e: Effect, n: Node)
    requires t in s.pc && NodeInv(s, a, n) && n != f && a'.Role(n) == a.Role(n)
    requires !Holds(s.Pc(t), n) && !InCharge(s.Pc(t), n) && !Holds(e.pc, n) && !InCharge(e.pc, n)
    requires n in e.held <==> n in s.Held(t)
    ensures NodeInv(Apply(s, t, f, e), a', n)
  {
    HoldersApply(s, t, f, e, n);
  }

  // The step seen from the node in focus, with k the number of counted references to it.
  ghost predicate FocusPre(pc: Pc, c: Call, own: set<Node>, h: Ptr, r: Word, role: Role, t: Tid, k: nat) {
    var f := Focus(pc, c);
    && k + 1 < SHOULD_BE_ON_FREELIST
    && Words(role, r, k)
    && (role.By(t) ==> Kept(role, f, pc, own))
    && (InCharge(pc, f) ==> role == Duty(pc, t))
    && (f in own ==> role == Owned(t) && !InCharge(pc, f))
    && (Holds(pc, f) ==> k > 0)
    && (pc.GetPop? && h == Ref(pc.node) ==> role == Listed)
    && (pc.GetCas? ==> Count(pc.refs) != 0)
    && (pc.Idle? && c.Add? ==> c.node in own)
  }

  function NewCount(pc: Pc, pc': Pc, f: Node, k: nat): int {
    if Holds(pc', f) && !Holds(pc, f) then k + 1
    else if Holds(pc, f) && !Holds(pc', f) then k - 1
    else k
  }

  lemma FocusWords(pc: Pc, c: Call, own: set<Node>, h: Ptr, r: Word, x: Ptr, role: Role, t: Tid, k: nat)
    requires FocusPre(pc, c, own, h, r, role, t, k)
    ensures
      var e := Local(pc, c, own, h, r, x);
      var k' := NewCount(pc, e.pc, Focus(pc, c), k);
      k' >= 0 && Words(NewRole(role, t, pc, h, r), e.refs, k')
  {
  }

  lemma FocusRoles(pc: Pc, c: Call, own: set<Node>, h: Ptr, r: Word, x: Ptr, role: Role, t: Tid, k: nat)
    requires FocusPre(pc, c, own, h, r, role, t, k)
    ensures
      var f := Focus(pc, c);
      var e := Local(pc, c, own, h, r, x);
      var role' := NewRole(role, t, pc, h, r);
      && (role'.By(t) ==> Kept(role', f, e.pc, e.held))
      && (InCharge(e.pc, f) ==> role' == Duty(e.pc, t) && f !in e.held)
      && (f in e.held ==> role' == Owned(t))
  {
  }

  // A step makes no node known and forgets none.
  lemma FocusKnown(pc: Pc, c: Call, own: set<Node>, h: Ptr, r: Word, role: Role, t: Tid, k: nat)
    requires FocusPre(pc, c, own, h, r, role, t, k)
    ensures NewRole(role, t, pc, h, r) == Absent <==> role == Absent
  {
  }

  // A step changes a role only away from or towards its own thread, and a next pointer only
  // when it is linking a node nobody references.
  lemma FocusOthers(pc: Pc, c: Call, own: set<Node>, h: Ptr, r: Word, x: Ptr, role: Role, t: Tid, k: nat, u: Tid)
    requires FocusPre(pc, c, own, h, r, role, t, k) && u != t
    ensures
      var e := Local(pc, c, own, h, r, x);
      var role' := NewRole(role, t, pc, h, r);
      && (role != role' ==> !role.By(u) && !role'.By(u))
      && (e.next != x ==> k == 0 && role == Flagged(t))
  {
  }

  lemma FocusPreHolds(s: State, a: Aux, t: Tid, c: Call)
    requires Inv(s, a) && CanCall(s, t, c)
    ensures var f := Focus(s.Pc(t), c);
      FocusPre(s.Pc(t), c, s.Held(t), s.head, s.Refs(f), a.Role(f), t, |Holders(s, f)|)
  {
    var f := Focus(s.Pc(t), c);
    HoldersBounded(s, f);
    assert NodeInv(s, a, f) && ThreadInv(s, a, t);
    assert t in Holders(s, f) <==> Holds(s.Pc(t), f);
    if s.head == Ref(f) { assert f in a.list; }
  }

  lemma NodeInFocus(s: State, a: Aux, t: Tid, c: Call)
    requires Inv(s, a) && CanCall(s, t, c)
    ensures NodeInv(Exec(s, t, c), Track(s, a, t, c), Focus(s.Pc(t), c))
  {
    var pc, f, e := s.Pc(t), Focus(s.Pc(t), c), EffectOf(s, t, c);
    var role, role' := a.Role(f), Track(s, a, t, c).Role(f);
    FocusPreHolds(s, a, t, c);
    assert NodeInv(s, a, f);
    FocusWords(pc, c, s.Held(t), s.head, s.Refs(f), s.Next(f), role, t, |Holders(s, f)|);
    FocusRoles(pc, c, s.Held(t), s.head, s.Refs(f), s.Next(f), role, t, |Holders(s, f)|);
    if role'.Owned? || role'.Flagged? || role'.Counted? {
      if role'.t != t {
        FocusOthers(pc, c, s.Held(t), s.head, s.Refs(f), s.Next(f), role, t, |Holders(s, f)|, role'.t);
      }
    }
    NodeFromFacts(s, a, Track(s, a, t, c), t, f, e);
  }

  lemma NodeFromFacts(s: State, a: Aux, a': Aux, t: Tid, f: Node, e: Effect)
    requires t in s.pc && NodeInv(s, a, f)
    requires var k := NewCount(s.Pc(t), e.pc, f, |Holders(s, f)|);
      && k >= 0 && Words(a'.Role(f), e.refs, k)
      && (a'.Role(f).By(t) ==> Kept(a'.Role(f), f, e.pc, e.held))
      && (a'.Role(f).By(t) || a'.Role(f) == a.Role(f) || forall u :: !a'.Role(f).By(u))
    ensures NodeInv(Apply(s, t, f, e), a', f)
  {
    hide Holders, Words, Kept;
    HoldersApply(s, t, f, e, f);
    var r := a'.Role(f);
    assert r.Owned? || r.Flagged? || r.Counted? ==> r.By(r.t);
  }

  lemma ThreadSelf(s: State, a: Aux, t: Tid, c: Call)
    requires Inv(s, a) && CanCall(s, t, c)
    ensures ThreadInv(Exec(s, t, c), Track(s, a, t, c), t)
  {
    var pc, f, e := s.Pc(t), Focus(s.Pc(t), c), EffectOf(s, t, c);
    FocusPreHolds(s, a, t, c);
    assert ThreadInv(s, a, t);
    FocusRoles(pc, c, s.Held(t), s.head, s.Refs(f), s.Next(f), a.Role(f), t, |Holders(s, f)|);
    RemembersWell(pc, c, s.Held(t), s.head, s.Refs(f), s.Next(f));
    var s', a' := Exec(s, t, c), Track(s, a, t, c);
    forall n ensures (n in s'.Held(t) ==> a'.Role(n) == Owned(t) && !InCharge(e.pc, n))
      && (InCharge(e.pc, n) ==> a'.Role(n) == Duty(e.pc, t))
    {
      if n != f { OffFocus(s, t, c, n); }
    }
  }

  // What the new program counter remembers is what the step has just read or written.
  lemma RemembersWell(pc: Pc, c: Call, own: set<Node>, h: Ptr, r: Word, x: Ptr)
    requires pc.LinkRefs? || pc.LinkCas? ==> x == pc.head
    requires pc.GetPop? ==> x == pc.next
    ensures
      var e := Local(pc, c, own, h, r, x);
      && (e.pc.LinkRefs? || e.pc.LinkCas? ==> e.pc.node == Focus(pc, c) && e.next == e.pc.head)
      && (e.pc.GetPop? ==> e.pc.node == Focus(pc, c) && e.next == e.pc.next)
      && (e.pc.GetCas? ==> Count(e.pc.refs) != 0)
  {
  }

  lemma ThreadFrame(s: State, a: Aux, a': Aux, t: Tid, f: Node, e: Effect, u: Tid)
    requires ThreadInv(s, a, u) && u != t && t in s.pc
    requires forall n | n != f :: a'.Role(n) == a.Role(n)
    requires a'.Role(f) == a.Role(f) || (!a.Role(f).By(u) && !a'.Role(f).By(u))
    requires e.next == s.Next(f) || (Holders(s, f) == {} && a.Role(f) == Flagged(t))
    ensures ThreadInv(Apply(s, t, f, e), a', u)
  {
    assert Holds(s.Pc(u), f) ==> u in Holders(s, f);
  }

  lemma ThreadOther(s: State, a: Aux, t: Tid, c: Call, u: Tid)
    requires Inv(s, a) && CanCall(s, t, c) && u != t
    ensures ThreadInv(Exec(s, t, c), Track(s, a, t, c), u)
  {
    var pc, f := s.Pc(t), Focus(s.Pc(t), c);
    FocusPreHolds(s, a, t, c);
    FocusOthers(pc, c, s.Held(t), s.head, s.Refs(f), s.Next(f), a.Role(f), t, |Holders(s, f)|, u);
    assert ThreadInv(s, a, u);
    ThreadFrame(s, a, Track(s, a, t, c), t, f, EffectOf(s, t, c), u);
  }

  lemma {:induction false} ChainFrame(h: Ptr, list: seq<Node>, s: State, s': State)
    requires Chain(h, list, s) && forall n | n in list :: s'.Next(n) == s.Next(n)
    ensures Chain(h, list, s')
    decreases |list|
  {
    if list != [] {
      ChainFrame(s.Next(list[0]), list[1..], s, s');
    }
  }

  // The head moves exactly when a node is pushed or popped, and the roles follow.
  datatype Move = Same | Push | Pop

  ghost predicate Moves(m: Move, f: Node, h: Ptr, x: Ptr, role: Role, list: seq<Node>, e: Effect, role': Role, list': seq<Node>) {
    match m
    case Same => e.head == h && list' == list && (role == Listed <==> role' == Listed)
    case Push => list' == [f] + list && e.head == Ref(f) && e.next == h && role' == Listed && role != Listed
    case Pop => list != [] && list' == list[1..] && h == Ref(f) && e.head == x && e.next == x && role' != Listed
  }

  lemma ListMoves(pc: Pc, c: Call, own: set<Node>, h: Ptr, r: Word, x: Ptr, role: Role, t: Tid, k: nat, list: seq<Node>) returns (m: Move)
    requires FocusPre(pc, c, own, h, r, role, t, k)
    requires pc.LinkCas? ==> x == pc.head
    requires pc.GetPop? ==> x == pc.next
    requires h.Ref? ==> list != []
    ensures Moves(m, Focus(pc, c), h, x, role, list,
                  Local(pc, c, own, h, r, x), NewRole(role, t, pc, h, r), NewList(list, pc, h))
  {
    m := if pc.LinkCas? && h == pc.head then Push
         else if pc.GetPop? && h == Ref(pc.node) then Pop
         else Same;
  }

  lemma ListFromMove(m: Move, s: State, a: Aux, a': Aux, t: Tid, f: Node, e: Effect)
    requires ListInv(s, a)
    requires Moves(m, f, s.head, s.Next(f), a.Role(f), a.list, e, a'.Role(f), a'.list)
    requires forall n | n != f :: a'.Role(n) == a.Role(n)
    requires e.next == s.Next(f) || a.Role(f) != Listed
    ensures ListInv(Apply(s, t, f, e), a')
  {
    var s' := Apply(s, t, f, e);
    ChainFrame(s.head, a.list, s, s');
    match m
    case Same =>
    case Push => assert a'.list[1..] == a.list;
    case Pop => assert a.list == [f] + a'.list;
  }

  lemma ListStep(s: State, a: Aux, t: Tid, c: Call)
    requires Inv(s, a) && CanCall(s, t, c)
    ensures ListInv(Exec(s, t, c), Track(s, a, t, c))
  {
    var pc, f := s.Pc(t), Focus(s.Pc(t), c);
    FocusPreHolds(s, a, t, c);
    assert ThreadInv(s, a, t);
    FocusOthers(pc, c, s.Held(t), s.head, s.Refs(f), s.Next(f), a.Role(f), t, |Holders(s, f)|, t + 1);
    var m := ListMoves(pc, c, s.Held(t), s.head, s.Refs(f), s.Next(f), a.Role(f), t, |Holders(s, f)|, a.list);
    ListFromMove(m, s, a, Track(s, a, t, c), t, f, EffectOf(s, t, c));
  }

  lemma InvStep(s: State, a: Aux, t: Tid, c: Call)
    requires Inv(s, a) && CanCall(s, t, c)
    ensures Inv(Exec(s, t, c), Track(s, a, t, c))
    ensures forall n :: Track(s, a, t, c).Role(n) == Absent <==> a.Role(n) == Absent
  {
    var s', a' := Exec(s, t, c), Track(s, a, t, c);
    FocusPreHolds(s, a, t, c);
    var f := Focus(s.Pc(t), c);
    FocusKnown(s.Pc(t), c, s.Held(t), s.head, s.Refs(f), a.Role(f), t, |Holders(s, f)|);
    assert s'.pc.Keys == s.pc.Keys;
    assert |s'.pc| == |s'.pc.Keys| == |s.pc.Keys| == |s.pc|;
    ListStep(s, a, t, c);
    forall n ensures NodeInv(s', a', n) {
      if n == Focus(s.Pc(t), c) {
        NodeInFocus(s, a, t, c);
      } else {
        OffFocus(s, t, c, n);
        assert NodeInv(s, a, n);
        NodeFrame(s, a, a', t, Focus(s.Pc(t), c), EffectOf(s, t, c), n);
      }
    }
    forall u ensures ThreadInv(s', a', u) {
      if u == t { ThreadSelf(s, a, t, c); } else { ThreadOther(s, a, t, c, u); }
    }
  }

  // ---------------------------------------------------------------------------------------
  // Runs

  // The list is empty, nothing is referenced, and each node belongs to at most one caller.
  ghost predicate Init(s: State) {
    && s.head == Null
    && (forall n :: s.Refs(n) == 0)
    && (forall t | t in s.pc :: s.pc[t] == Idle)
    && s.held.Keys <= s.pc.Keys
    && (forall t, u, n | n in s.Held(t) && n in s.Held(u) :: t == u)
    && |s.pc| + 1 < SHOULD_BE_ON_FREELIST
  }

  ghost predicate HasOwner(s: State, n: Node) {
    exists t :: n in s.Held(t)
  }

  datatype Event = Event(t: Tid, call: Call)

  // s' is reached from s by the interleaving `events`.
  ghost predicate Run(s: State, events: seq<Event>, s': State)
    decreases |events|
  {
    if events == [] then s' == s else
      && CanCall(s, events[0].t, events[0].call)
      && Run(Exec(s, events[0].t, events[0].call), events[1..], s')
  }

  ghost predicate Reachable(s: State) {
    exists s0, events :: Init(s0) && Run(s0, events, s)
  }

  lemma InitInv(s: State) returns (a: Aux)
    requires Init(s)
    ensures Inv(s, a)
    ensures forall n :: a.Role(n) == Absent <==> !HasOwner(s, n)
  {
    var owned := set t, n | t in s.held && n in s.held[t] :: n;
    a := Aux([], map n | n in owned :: var t :| t in s.held && n in s.held[t]; Owned(t));
    forall n ensures NodeInv(s, a, n) && (a.Role(n) == Absent <==> !HasOwner(s, n)) {
      assert Holders(s, n) == {};
      if HasOwner(s, n) {
        var t :| n in s.Held(t);
        assert n in owned;
      }
    }
    forall t ensures ThreadInv(s, a, t) {
      forall n | n in s.Held(t) ensures a.Role(n) == Owned(t) {
        assert n in owned && n in s.Held(a.role[n].t);
      }
    }
  }

  lemma {:induction false} RunInv(s: State, a: Aux, events: seq<Event>, s': State) returns (a': Aux)
    requires Inv(s, a) && Run(s, events, s')
    ensures Inv(s', a')
    ensures forall n :: a'.Role(n) == Absent <==> a.Role(n) == Absent
    decreases |events|
  {
    if events == [] {
      a' := a;
    } else {
      InvStep(s, a, events[0].t, events[0].call);
      a' := RunInv(Exec(s, events[0].t, events[0].call), Track(s, a, events[0].t, events[0].call), events[1..], s');
    }
  }

  lemma ReachableInv(s: State) returns (a: Aux)
    requires Reachable(s)
    ensures Inv(s, a)
  {
    var s0, events :| Init(s0) && Run(s0, events, s);
    a := InitInv(s0);
    a := RunInv(s0, a, events, s);
  }

  // No node is owned by two callers at once, and none is both owned and about to be handed
  // to another thread.
  lemma ExclusiveOwnership(s: State, t: Tid, u: Tid, n: Node)
    requires Reachable(s) && n in s.Held(t) && t != u
    ensures n !in s.Held(u)
    ensures s.Pc(u) != GetRelease(n) && !InCharge(s.Pc(u), n)
  {
    var a := ReachableInv(s);
    assert ThreadInv(s, a, t) && ThreadInv(s, a, u);
  }

  // While a thread counts a reference to n, no step of any thread changes freeListNext of n.
  lemma NextIsStable(s: State, t: Tid, c: Call, u: Tid, n: Node)
    requires Reachable(s) && CanCall(s, t, c) && u in Holders(s, n)
    ensures Exec(s, t, c).Next(n) == s.Next(n)
  {
    var a := ReachableInv(s);
    var f := Focus(s.Pc(t), c);
    FocusPreHolds(s, a, t, c);
    FocusOthers(s.Pc(t), c, s.Held(t), s.head, s.Refs(f), s.Next(f), a.Role(f), t, |Holders(s, f)|, t + 1);
  }

  // Seen from its callers the list is a set of nodes without owner: a successful try_get moves
  // one of them to its caller when it returns, add gives one back when it is called, and no
  // other step moves any.
  lemma ActsAsPool(s: State, t: Tid, c: Call)
    requires Reachable(s) && CanCall(s, t, c)
    ensures var s', pc := Exec(s, t, c), s.Pc(t);
      && (forall u | u != t :: s'.Held(u) == s.Held(u))
      && (pc.GetRelease? ==> !HasOwner(s, pc.node) && s'.Held(t) == s.Held(t) + {pc.node})
      && (pc.Idle? && c.Add? ==> HasOwner(s, c.node) && !HasOwner(s', c.node) && s'.Held(t) == s.Held(t) - {c.node})
      && (!pc.GetRelease? && !(pc.Idle? && c.Add?) ==> s'.Held(t) == s.Held(t))
  {
    hide Exec, Reachable, InCharge;
    HeldMoves(s, t, c);
    if s.Pc(t).GetRelease? {
      NobodyOwns(s, t);
    } else if s.Pc(t).Idle? && c.Add? {
      forall u | u != t ensures c.node !in s.Held(u) { ExclusiveOwnership(s, t, u, c.node); }
    }
  }

  lemma HeldMoves(s: State, t: Tid, c: Call)
    ensures var s', pc := Exec(s, t, c), s.Pc(t);
      && (forall u | u != t :: s'.Held(u) == s.Held(u))
      && s'.Held(t) == if pc.GetRelease? then s.Held(t) + {pc.node}
                       else if pc.Idle? && c.Add? then s.Held(t) - {c.node} else s.Held(t)
  {
  }

  lemma NobodyOwns(s: State, t: Tid)
    requires Reachable(s) && s.Pc(t).GetRelease?
    ensures !HasOwner(s, s.Pc(t).node)
  {
    hide Reachable, NodeInv, ListInv;
    var a := ReachableInv(s);
    assert ThreadInv(s, a, t) && InCharge(s.Pc(t), s.Pc(t).node);
    forall u ensures s.Pc(t).node !in s.Held(u) { assert ThreadInv(s, a, u); }
  }

  // The assertion in try_get: a node just taken off the list does not carry the flag.
  lemma PoppedIsUnflagged(s: State, t: Tid)
    requires Reachable(s) && s.Pc(t).GetRelease?
    ensures 2 <= s.Refs(s.Pc(t).node) < SHOULD_BE_ON_FREELIST
  {
    var a := ReachableInv(s);
    var n := s.Pc(t).node;
    assert ThreadInv(s, a, t) && NodeInv(s, a, n) && InCharge(s.Pc(t), n);
    HoldersBounded(s, n);
    assert t in Holders(s, n);
  }

  lemma QuiescentRole(s: State, a: Aux, n: Node)
    requires Inv(s, a) && forall t | t in s.pc :: s.pc[t] == Idle
    ensures a.Role(n).Listed? || a.Role(n).Absent? || (a.Role(n).Owned? && n in s.Held(a.Role(n).t))
    ensures forall t | n in s.Held(t) :: a.Role(n) == Owned(t)
  {
    assert Holders(s, n) == {};
    assert NodeInv(s, a, n);
    forall t | n in s.Held(t) ensures a.Role(n) == Owned(t) { assert ThreadInv(s, a, t); }
  }

  // With no operation under way, each node the callers started with is either owned by one
  // caller or on the list exactly once, and the list is exactly what following the next
  // pointers from the head visits.
  lemma QuiescentList(s0: State, events: seq<Event>, s: State) returns (list: seq<Node>)
    requires Init(s0) && Run(s0, events, s) && forall t | t in s.pc :: s.pc[t] == Idle
    ensures Chain(s.head, list, s) && Distinct(list)
    ensures forall n :: HasOwner(s0, n) <==> n in list || HasOwner(s, n)
    ensures forall n | n in list :: !HasOwner(s, n)
  {
    var a := InitInv(s0);
    a := RunInv(s0, a, events, s);
    list := a.list;
    forall n
      ensures a.Role(n) == Absent <==> n !in list && !HasOwner(s, n)
      ensures n in list ==> !HasOwner(s, n)
    {
      QuiescentRole(s, a, n);
    }
  }
}
