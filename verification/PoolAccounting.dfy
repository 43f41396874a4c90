/**
 Byte accounting in a tree of memory pools.

 An allocation counts in its pool and in that pool's parent, and in no pool further up. The
 address that the slab or the underlying allocator found is a parameter; 0 stands for failure.
 */
module PoolAccounting {
  import opened Sums

  type PoolId = nat

  // parent is 0 for a root pool; limit 0 means no limit; live maps what the pool's clients
  // hold to the requested sizes.
  datatype Pool = Pool(parent: PoolId, limit: nat, inUse: nat, peak: nat, live: map<nat, nat>)

  type Pools = map<PoolId, Pool>

  ghost function Own(p: Pool): nat {
    Sum(p.live)
  }

  ghost function ChildBytes(ps: Pools, p: PoolId): map<PoolId, nat> {
    map q | q in ps && ps[q].parent == p :: Own(ps[q])
  }

  predicate Childless(ps: Pools, p: PoolId) {
    forall q | q in ps :: ps[q].parent != p
  }

  ghost predicate TreeOk(ps: Pools, next: PoolId) {
    && next > 0
    && (forall p | p in ps :: 0 < p < next && ps[p].parent < p && (ps[p].parent == 0 || ps[p].parent in ps))
  }

  // bytes_in_use is what the pool's clients hold plus what its direct children's clients hold.
  ghost predicate Booked(ps: Pools, p: PoolId)
    requires p in ps
  {
    ps[p].inUse == Own(ps[p]) + Sum(ChildBytes(ps, p))
  }

  ghost predicate LimitKept(p: Pool) {
    (p.limit > 0 ==> Own(p) <= p.limit) && Own(p) <= p.peak
  }

  ghost predicate BooksOk(ps: Pools, next: PoolId) {
    && TreeOk(ps, next)
    && (forall p | p in ps :: Booked(ps, p) && LimitKept(ps[p]))
  }

  // Saturating subtraction.
  function Less(x: nat, y: nat): nat {
    if x > y then x - y else 0
  }

  function Minus(x: nat): int {
    var i: int := x;
    -i
  }

  // ---------------------------------------------------------------------------------------
  // A change of what pool p's clients hold

  // p's books and its parent's move by d.
  ghost predicate Moves(ps: Pools, ps': Pools, p: PoolId, d: int) {
    && ps'.Keys == ps.Keys && p in ps
    && (forall q | q in ps && q != p :: ps'[q].live == ps[q].live && Own(ps'[q]) == Own(ps[q]))
    && Own(ps'[p]) == Own(ps[p]) + d
    && (forall q | q in ps :: ps'[q].parent == ps[q].parent && ps'[q].limit == ps[q].limit)
    && (forall q | q in ps :: ps'[q].inUse == ps[q].inUse + if q == p || q == ps[p].parent then d else 0)
  }

  // p's peak follows its counter; no other peak changes, the parent's included.
  ghost predicate PeakFollows(ps: Pools, ps': Pools, p: PoolId) {
    && ps'.Keys == ps.Keys && p in ps
    && ps'[p].peak == (if ps'[p].inUse > ps[p].peak then ps'[p].inUse else ps[p].peak)
    && (forall q | q in ps && q != p :: ps'[q].peak == ps[q].peak)
  }

  ghost predicate PeaksStay(ps: Pools, ps': Pools) {
    ps'.Keys == ps.Keys && forall q | q in ps :: ps'[q].peak == ps[q].peak
  }

  lemma ChildMoves(ps: Pools, ps': Pools, next: PoolId, p: PoolId, d: int, q: PoolId)
    requires TreeOk(ps, next) && Moves(ps, ps', p, d) && q in ps
    ensures Sum(ChildBytes(ps', q)) == Sum(ChildBytes(ps, q)) + if q == ps[p].parent then d else 0
  {
    hide Own;
    if q == ps[p].parent {
      SumUpdate(ChildBytes(ps, q), p, Own(ps'[p]));
      assert ChildBytes(ps', q) == ChildBytes(ps, q)[p := Own(ps'[p])];
    } else {
      assert ChildBytes(ps', q) == ChildBytes(ps, q);
    }
  }

  lemma MovesBooked(ps: Pools, ps': Pools, next: PoolId, p: PoolId, d: int)
    requires BooksOk(ps, next) && Moves(ps, ps', p, d)
    ensures TreeOk(ps', next) && forall q | q in ps' :: Booked(ps', q)
  {
    hide Own, ChildBytes, LimitKept;
    forall q | q in ps' ensures Booked(ps', q) {
      assert Booked(ps, q);
      ChildMoves(ps, ps', next, p, d, q);
    }
  }

  // A pool's books cover what it and each of its children hold.
  lemma BooksCover(ps: Pools, next: PoolId, p: PoolId)
    requires BooksOk(ps, next) && p in ps
    ensures Own(ps[p]) <= ps[p].inUse
    ensures ps[p].parent in ps ==> Own(ps[p]) <= ps[ps[p].parent].inUse
  {
    hide Own;
    assert Booked(ps, p);
    var m := ps[p].parent;
    if m in ps {
      assert Booked(ps, m);
      SumRemove(ChildBytes(ps, m), p);
    }
  }

  // A pool without children never exceeds its limit, and no pool's own clients ever do.
  lemma ChildlessWithinLimit(ps: Pools, next: PoolId, p: PoolId)
    requires BooksOk(ps, next) && p in ps && ps[p].limit > 0
    ensures Own(ps[p]) <= ps[p].limit
    ensures Childless(ps, p) ==> ps[p].inUse == Own(ps[p]) <= ps[p].limit
  {
    assert LimitKept(ps[p]) && Booked(ps, p);
    if Childless(ps, p) { assert ChildBytes(ps, p) == map[]; }
  }

  // What a pool's counter adds up to.
  lemma BooksMeaning(ps: Pools, next: PoolId, p: PoolId)
    requires BooksOk(ps, next) && p in ps
    ensures ps[p].inUse == Own(ps[p]) + Sum(ChildBytes(ps, p))
    ensures ps[p].inUse == 0 <==> ps[p].live.Values <= {0} && forall q | q in ps && ps[q].parent == p :: ps[q].live.Values <= {0}
  {
    assert Booked(ps, p);
    ZeroOwn(ps[p]);
    SumIsZero(ChildBytes(ps, p));
    forall q | q in ps && ps[q].parent == p ensures ChildBytes(ps, p)[q] == 0 <==> ps[q].live.Values <= {0} { ZeroOwn(ps[q]); }
    assert forall q :: q in ChildBytes(ps, p) <==> q in ps && ps[q].parent == p;
  }

  lemma ZeroOwn(p: Pool)
    ensures Own(p) == 0 <==> p.live.Values <= {0}
  {
    SumIsZero(p.live);
    if p.live.Values <= {0} {
      forall k | k in p.live ensures p.live[k] == 0 { assert p.live[k] in p.live.Values; }
    }
  }

  // ---------------------------------------------------------------------------------------
  // The pools

  function Max(x: nat, y: nat): nat {
    if x < y then y else x
  }

  // The books after size bytes at address a were given to a client of p.
  function Credited(ps: Pools, p: PoolId, a: nat, size: nat): Pools
    requires p in ps
  {
    var mine := ps[p].inUse + size;
    var ps1 := ps[p := ps[p].(inUse := mine, peak := Max(ps[p].peak, mine), live := ps[p].live[a := size])];
    var m := ps[p].parent;
    if m in ps then ps1[m := ps1[m].(inUse := ps1[m].inUse + size)] else ps1
  }

  // The books after a client of p gave back address a; both subtractions saturate.
  function Debited(ps: Pools, p: PoolId, a: nat): Pools
    requires p in ps && a in ps[p].live
  {
    var size := ps[p].live[a];
    var ps1 := ps[p := ps[p].(inUse := Less(ps[p].inUse, size), live := ps[p].live - {a})];
    var m := ps[p].parent;
    if m in ps then ps1[m := ps1[m].(inUse := Less(ps1[m].inUse, size))] else ps1
  }

  lemma CreditMoves(ps: Pools, next: PoolId, p: PoolId, a: nat, size: nat)
    requires BooksOk(ps, next) && p in ps && a !in ps[p].live
    ensures Moves(ps, Credited(ps, p, a, size), p, size) && PeakFollows(ps, Credited(ps, p, a, size), p)
  {
    hide Sum, Booked, LimitKept;
    SumUpdate(ps[p].live, a, size);
    var ps' := Credited(ps, p, a, size);
    var m := ps[p].parent;
    assert m < p;
    forall q | q in ps && q != p && q != m ensures ps'[q] == ps[q] { }
  }

  lemma CreditBooks(ps: Pools, next: PoolId, p: PoolId, a: nat, size: nat)
    requires BooksOk(ps, next) && p in ps && a !in ps[p].live
    requires ps[p].limit == 0 || ps[p].inUse + size <= ps[p].limit
    ensures BooksOk(Credited(ps, p, a, size), next)
  {
    var ps' := Credited(ps, p, a, size);
    CreditMoves(ps, next, p, a, size);
    MovesBooked(ps, ps', next, p, size);
    BooksCover(ps, next, p);
    forall q | q in ps' ensures LimitKept(ps'[q]) { CreditLimit(ps, next, p, a, size, q); }
  }

  lemma CreditLimit(ps: Pools, next: PoolId, p: PoolId, a: nat, size: nat, q: PoolId)
    requires BooksOk(ps, next) && p in ps && a !in ps[p].live && q in ps
    requires ps[p].limit == 0 || ps[p].inUse + size <= ps[p].limit
    ensures q in Credited(ps, p, a, size) && LimitKept(Credited(ps, p, a, size)[q])
  {
    hide Own, Booked;
    CreditMoves(ps, next, p, a, size);
    BooksCover(ps, next, p);
    assert LimitKept(ps[q]);
  }

  // Neither subtraction saturates.
  lemma DebitMoves(ps: Pools, next: PoolId, p: PoolId, a: nat)
    requires BooksOk(ps, next) && p in ps && a in ps[p].live
    ensures Moves(ps, Debited(ps, p, a), p, Minus(ps[p].live[a])) && PeaksStay(ps, Debited(ps, p, a))
    ensures ps[p].live[a] <= ps[p].inUse && (ps[p].parent in ps ==> ps[p].live[a] <= ps[ps[p].parent].inUse)
  {
    hide Sum, Booked, LimitKept;
    SumRemove(ps[p].live, a);
    BooksCover(ps, next, p);
    var ps' := Debited(ps, p, a);
    var m := ps[p].parent;
    assert m < p;
    forall q | q in ps && q != p && q != m ensures ps'[q] == ps[q] { }
  }

  lemma DebitBooks(ps: Pools, next: PoolId, p: PoolId, a: nat)
    requires BooksOk(ps, next) && p in ps && a in ps[p].live
    ensures BooksOk(Debited(ps, p, a), next)
  {
    hide Own, Booked;
    var ps' := Debited(ps, p, a);
    DebitMoves(ps, next, p, a);
    MovesBooked(ps, ps', next, p, Minus(ps[p].live[a]));
    forall q | q in ps' ensures LimitKept(ps'[q]) { assert LimitKept(ps[q]); }
  }

  lemma ChildAdded(ps: Pools, next: PoolId, child: Pool, q: PoolId)
    requires TreeOk(ps, next) && Own(child) == 0
    ensures Sum(ChildBytes(ps[next := child], q)) == Sum(ChildBytes(ps, q))
  {
    hide Own;
    var ps' := ps[next := child];
    assert next !in ps;
    if q == child.parent {
      SumUpdate(ChildBytes(ps, q), next, 0);
      assert ChildBytes(ps', q) == ChildBytes(ps, q)[next := 0];
    } else {
      assert ChildBytes(ps', q) == ChildBytes(ps, q);
    }
  }

  lemma NoChildren(ps: Pools, next: PoolId)
    requires TreeOk(ps, next)
    ensures Sum(ChildBytes(ps, next)) == 0
  {
    assert ChildBytes(ps, next) == map[];
  }

  lemma NothingHeld(parent: PoolId, limit: nat)
    ensures Own(Pool(parent, limit, 0, 0, map[])) == 0
  {
  }

  lemma ChildBooks(ps: Pools, next: PoolId, parent: PoolId, limit: nat)
    requires BooksOk(ps, next) && (parent == 0 || parent in ps)
    ensures BooksOk(ps[next := Pool(parent, limit, 0, 0, map[])], next + 1)
  {
    hide Own, ChildBytes, Sum;
    var child := Pool(parent, limit, 0, 0, map[]);
    var ps' := ps[next := child];
    NothingHeld(parent, limit);
    NoChildren(ps, next);
    forall q | q in ps' ensures Booked(ps', q) && LimitKept(ps'[q]) {
      ChildAdded(ps, next, child, q);
      if q != next { assert Booked(ps, q) && LimitKept(ps[q]); }
    }
  }

  // Every counter with a limit is within it.
  ghost predicate WithinLimits(ps: Pools) {
    forall p | p in ps && ps[p].limit > 0 :: ps[p].inUse <= ps[p].limit
  }

  // There is no limit above p, or room for size bytes below it.
  predicate RoomAbove(ps: Pools, p: PoolId, size: nat)
    requires p in ps
  {
    var m := ps[p].parent;
    m !in ps || ps[m].limit == 0 || ps[m].inUse + size <= ps[m].limit
  }

  // An allocation that passes its own pool's budget test keeps every counter within its limit
  // exactly when there is room above; the code does not test that.
  lemma LimitsNeedRoomAbove(ps: Pools, next: PoolId, p: PoolId, a: nat, size: nat)
    requires BooksOk(ps, next) && p in ps && a !in ps[p].live && WithinLimits(ps)
    requires ps[p].limit == 0 || ps[p].inUse + size <= ps[p].limit
    ensures WithinLimits(Credited(ps, p, a, size)) <==> RoomAbove(ps, p, size)
  {
    hide Own, Booked, LimitKept;
    CreditMoves(ps, next, p, a, size);
    ParentSmaller(ps, next, p);
    var ps', m := Credited(ps, p, a, size), ps[p].parent;
    if m in ps {
      assert ps'[m].inUse == ps[m].inUse + size && ps'[m].limit == ps[m].limit;
    }
  }

  lemma DebitKeepsLimits(ps: Pools, next: PoolId, p: PoolId, a: nat)
    requires BooksOk(ps, next) && p in ps && a in ps[p].live && WithinLimits(ps)
    ensures WithinLimits(Debited(ps, p, a))
  {
    hide Own, Booked, LimitKept;
    DebitMoves(ps, next, p, a);
  }

  class PoolForest {
    var pools: Pools
    var nextId: PoolId

    ghost predicate Valid()
      reads this
    {
      BooksOk(pools, nextId)
    }

    constructor ()
      ensures Valid() && pools == map[]
    {
      pools, nextId := map[], 1;
    }

    // A root pool, or a child of an existing pool.
    method Create(parent: PoolId, limit: nat) returns (id: PoolId)
      requires Valid() && (parent == 0 || parent in pools)
      modifies this
      ensures Valid() && id !in old(pools) && pools == old(pools)[id := Pool(parent, limit, 0, 0, map[])]
    {
      hide BooksOk;
      ChildBooks(pools, nextId, parent, limit);
      NewId(pools, nextId);
      id := nextId;
      pools := pools[id := Pool(parent, limit, 0, 0, map[])];
      nextId := nextId + 1;
    }

    method Alloc(p: PoolId, size: nat, found: nat) returns (ptr: nat)
      requires Valid() && p in pools && found !in pools[p].live
      modifies this
      ensures Valid()
      ensures ptr == if size == 0 || found == 0 || (old(pools)[p].limit > 0 && old(pools)[p].inUse + size > old(pools)[p].limit) then 0 else found
      ensures ptr == 0 ==> pools == old(pools)
      ensures ptr != 0 ==> Moves(old(pools), pools, p, size) && pools[p].live == old(pools)[p].live[ptr := size]
      ensures ptr != 0 ==> PeakFollows(old(pools), pools, p)
      ensures ptr != 0 && WithinLimits(old(pools)) ==> (WithinLimits(pools) <==> RoomAbove(old(pools), p, size))
    {
      hide BooksOk, Moves, WithinLimits, RoomAbove, PeakFollows;
      if WithinLimits(pools) && (pools[p].limit == 0 || pools[p].inUse + size <= pools[p].limit) {
        LimitsNeedRoomAbove(pools, nextId, p, found, size);
      }
      if size == 0 { return 0; }
      if pools[p].limit > 0 && pools[p].inUse + size > pools[p].limit { return 0; }
      if found == 0 { return 0; }
      CreditMoves(pools, nextId, p, found, size);
      CreditBooks(pools, nextId, p, found, size);
      ParentSmaller(pools, nextId, p);
      pools := Credited(pools, p, found, size);
      return found;
    }

    method Free(p: PoolId, ptr: nat)
      requires Valid() && p in pools
      modifies this
      ensures Valid()
      ensures ptr !in old(pools)[p].live ==> pools == old(pools)
      ensures ptr in old(pools)[p].live ==>
        Moves(old(pools), pools, p, Minus(old(pools)[p].live[ptr])) && pools[p].live == old(pools)[p].live - {ptr}
      ensures PeaksStay(old(pools), pools)
      ensures WithinLimits(old(pools)) ==> WithinLimits(pools)
    {
      hide BooksOk, Moves, WithinLimits;
      if ptr !in pools[p].live { return; }
      if WithinLimits(pools) { DebitKeepsLimits(pools, nextId, p, ptr); }
      DebitMoves(pools, nextId, p, ptr);
      DebitBooks(pools, nextId, p, ptr);
      ParentSmaller(pools, nextId, p);
      pools := Debited(pools, p, ptr);
    }
  }

  lemma NewId(ps: Pools, next: PoolId)
    requires BooksOk(ps, next)
    ensures next !in ps
  {
  }

  lemma ParentSmaller(ps: Pools, next: PoolId, p: PoolId)
    requires BooksOk(ps, next) && p in ps
    ensures ps[p].parent < p
  {
  }

  // A child's clients are not held to the parent's limit: the parent's counter passes it.
  method ParentExceedsItsLimit(limit: nat) returns (forest: PoolForest, parent: PoolId)
    requires limit > 0
    ensures forest.Valid() && parent in forest.pools
    ensures forest.pools[parent].limit == limit < forest.pools[parent].inUse
  {
    forest := new PoolForest();
    parent := forest.Create(0, limit);
    var child := forest.Create(parent, 0);
    var ptr := forest.Alloc(child, limit + 1, 4096);
  }
}
