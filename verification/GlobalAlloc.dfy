/**
 The global allocator: a backend that can be exchanged while no memory is in use.

 One class models the backends, which keep the same books. The addresses that the C library
 finds are parameters; 0 stands for its failure and for NULL.
 */
module GlobalAlloc {
  import opened Sums
  import opened RingSizing

  datatype Backend = System | TbbScalable | Mimalloc

  datatype Options = Options(backend: Backend, strict: bool)

  datatype Status = Ok | InvalidArgument | InternalError | Unsupported | WouldBlock

  datatype Counters = Counters(allocs: nat, frees: nat, failures: nat, peak: nat)

  const POINTER_BYTES: nat := 8

  // How far each count has risen.
  predicate Counted(before: Counters, after: Counters, allocs: nat, frees: nat, failures: nat) {
    && after.allocs == before.allocs + allocs
    && after.frees == before.frees + frees
    && after.failures == before.failures + failures
  }

  // ---------------------------------------------------------------------------------------
  // Alignment

  predicate IsPowerOfTwo(x: nat) {
    x != 0 && And(x, x - 1) == 0
  }

  lemma {:induction false} AndSame(x: nat)
    ensures And(x, x) == x
  {
    if x > 0 { AndSame(x / 2); }
  }

  lemma PredecessorHalf(x: nat)
    requires x > 1
    ensures x % 2 == 0 ==> And(x, x - 1) == 2 * And(x / 2, x / 2 - 1)
    ensures x % 2 == 1 ==> And(x, x - 1) == 2 * (x / 2)
  {
    if x % 2 == 1 {
      assert (x - 1) / 2 == x / 2;
      AndSame(x / 2);
    } else {
      assert (x - 1) / 2 == x / 2 - 1;
    }
  }

  // The bit test accepts exactly the powers of two.
  lemma {:induction false} PowerOfTwoTest(x: nat)
    ensures IsPowerOfTwo(x) <==> exists k: nat :: x == Pow2(k)
  {
    if x == 0 {
      forall k: nat ensures Pow2(k) != 0 { }
    } else if x == 1 {
      assert Pow2(0) == 1 && And(1, 0) == 0;
    } else {
      PredecessorHalf(x);
      PowerOfTwoTest(x / 2);
      HalfPower(x);
    }
  }

  lemma HalfPower(x: nat)
    requires x > 1
    ensures (exists k: nat :: x == Pow2(k)) <==> x % 2 == 0 && exists k: nat :: x / 2 == Pow2(k)
  {
    if k: nat :| x == Pow2(k) {
      assert k > 0 && Pow2(k) == 2 * Pow2(k - 1);
      assert x / 2 == Pow2(k - 1);
    }
    if x % 2 == 0 {
      if k: nat :| x / 2 == Pow2(k) {
        assert x == Pow2(k + 1);
      }
    }
  }

  // ---------------------------------------------------------------------------------------
  // One backend

  class Allocator {
    const backend: Backend
    var sizes: map<nat, nat>
    var bytesInUse: nat
    var counters: Counters

    // bytes_in_use is the sum of the recorded sizes, all of them positive.
    ghost predicate Valid()
      reads this
    {
      && bytesInUse == Sum(sizes) && bytesInUse <= counters.peak
      && (forall p | p in sizes :: p != 0 && sizes[p] > 0)
    }

    constructor (b: Backend)
      ensures Valid() && backend == b && sizes == map[] && bytesInUse == 0 && counters == Counters(0, 0, 0, 0)
    {
      backend, sizes, bytesInUse, counters := b, map[], 0, Counters(0, 0, 0, 0);
    }

    // The sum of the recorded sizes.
    method LiveBytes() returns (live: nat)
      ensures live == Sum(sizes)
    {
      live := 0;
      var todo := sizes.Keys;
      assert sizes - sizes.Keys == map[];
      while todo != {}
        invariant todo <= sizes.Keys && live == Sum(sizes - todo)
      {
        var p := Choose(todo);
        SumUpdate(sizes - todo, p, sizes[p]);
        assert (sizes - todo)[p := sizes[p]] == sizes - (todo - {p});
        live := live + sizes[p];
        todo := todo - {p};
      }
      assert sizes - {} == sizes;
    }

    method ResetStats()
      requires Valid()
      modifies this
      ensures Valid() && sizes == old(sizes) && bytesInUse == old(bytesInUse)
      ensures counters == Counters(0, 0, 0, bytesInUse)
    {
      var live := LiveBytes();
      bytesInUse := live;
      counters := Counters(0, 0, 0, live);
    }

    method RecordAllocSuccess(p: nat, size: nat)
      requires Valid() && p != 0 && p !in sizes && size > 0
      modifies this
      ensures Valid() && sizes == old(sizes)[p := size] && bytesInUse == old(bytesInUse) + size
      ensures Counted(old(counters), counters, 1, 0, 0)
      ensures counters.peak == if bytesInUse > old(counters).peak then bytesInUse else old(counters).peak
    {
      SumUpdate(sizes, p, size);
      sizes := sizes[p := size];
      bytesInUse := bytesInUse + size;
      counters := counters.(allocs := counters.allocs + 1, peak := if bytesInUse > counters.peak then bytesInUse else counters.peak);
    }

    // The subtraction never saturates.
    method RecordDeallocate(p: nat)
      requires Valid()
      modifies this
      ensures Valid() && sizes == old(sizes) - {p}
      ensures p in old(sizes) ==> old(sizes)[p] <= old(bytesInUse) && bytesInUse == old(bytesInUse) - old(sizes)[p]
      ensures p !in old(sizes) ==> bytesInUse == old(bytesInUse)
      ensures Counted(old(counters), counters, 0, 1, 0) && counters.peak == old(counters).peak
    {
      var released := 0;
      if p in sizes {
        SumRemove(sizes, p);
        released := sizes[p];
        sizes := sizes - {p};
      } else {
        assert sizes - {p} == sizes;
      }
      counters := counters.(frees := counters.frees + 1);
      if released > 0 {
        bytesInUse := if bytesInUse > released then bytesInUse - released else 0;
      }
    }

    method Allocate(size: nat, alignment: nat, found: nat) returns (st: Status, p: nat)
      requires Valid() && found !in sizes
      modifies this
      ensures Valid()
      ensures st == if size == 0 || alignment < POINTER_BYTES || !IsPowerOfTwo(alignment) then InvalidArgument
                    else if found == 0 then InternalError else Ok
      ensures st == Ok ==> p == found != 0 && sizes == old(sizes)[p := size] && Counted(old(counters), counters, 1, 0, 0)
      ensures st == Ok ==> counters.peak == if bytesInUse > old(counters).peak then bytesInUse else old(counters).peak
      ensures st != Ok ==> p == 0 && sizes == old(sizes) && Counted(old(counters), counters, 0, 0, 1) && counters.peak == old(counters).peak
    {
      if size == 0 || alignment < POINTER_BYTES || !IsPowerOfTwo(alignment) {
        counters := counters.(failures := counters.failures + 1);
        return InvalidArgument, 0;
      }
      if found == 0 {
        counters := counters.(failures := counters.failures + 1);
        return InternalError, 0;
      }
      RecordAllocSuccess(found, size);
      return Ok, found;
    }

    method Deallocate(p: nat)
      requires Valid()
      modifies this
      ensures Valid() && sizes == old(sizes) - {p}
      ensures Counted(old(counters), counters, 0, if p == 0 then 0 else 1, 0) && counters.peak == old(counters).peak
    {
      if p == 0 {
        assert sizes - {p} == sizes;
        return;
      }
      RecordDeallocate(p);
    }
  }

  // ---------------------------------------------------------------------------------------
  // The global allocator

  class GlobalAllocator {
    const enabled: set<Backend>              // backends compiled in besides System
    var current: Allocator
    var options: Options
    ghost var owner: map<nat, Allocator>     // for every live pointer, the instance that produced it

    // Every live pointer was produced by the installed instance, which has it on its books, and
    // the recorded option names the installed backend.
    ghost predicate Valid()
      reads this, current
    {
      && current.Valid() && owner.Keys == current.sizes.Keys
      && (forall p | p in owner :: owner[p] == current)
      && options.backend == current.backend
    }

    constructor (compiledIn: set<Backend>)
      ensures Valid() && enabled == compiledIn && owner == map[] && options == Options(System, true)
      ensures fresh(current)
    {
      enabled := compiledIn;
      current := new Allocator(System);
      options := Options(System, true);
      owner := map[];
    }

    // The backend that a successful Configure leaves installed.
    function Installed(before: Backend, wanted: Backend): Backend {
      if wanted == before || wanted == System || wanted in enabled then wanted else System
    }

    method CreateAllocator(backend: Backend) returns (st: Status, created: Allocator?)
      ensures st == if backend == System || backend in enabled then Ok else Unsupported
      ensures st == Ok <==> created != null
      ensures created != null ==> fresh(created) && created.Valid() && created.backend == backend && created.sizes == map[]
    {
      if backend == System || backend in enabled {
        created := new Allocator(backend);
        return Ok, created;
      }
      return Unsupported, null;
    }

    // A change of backend is refused while anything is live; otherwise nothing is live in the new
    // instance either. Without strict, an unavailable backend falls back to System.
    method Configure(wanted: Options) returns (st: Status)
      requires Valid()
      modifies this
      ensures Valid() && owner == old(owner)
      ensures current == old(current) || (fresh(current) && owner == map[])
      ensures st == if wanted.backend == old(options).backend then Ok
                    else if old(owner) != map[] then WouldBlock
                    else if wanted.backend == System || wanted.backend in enabled || !wanted.strict then Ok else Unsupported
      ensures st != Ok ==> options == old(options) && current == old(current)
      ensures st == Ok && wanted.backend != old(options).backend ==> fresh(current)
      ensures st == Ok ==> options.strict == wanted.strict
      ensures st == Ok ==> options.backend == Installed(old(options).backend, wanted.backend)
    {
      if wanted.backend != options.backend {
        EmptyBooks(current.sizes);
        if current.bytesInUse != 0 { return WouldBlock; }
        var code, created := CreateAllocator(wanted.backend);
        if created == null {
          if wanted.strict { return code; }
          code, created := CreateAllocator(System);
          current := created;
          options := wanted.(backend := System);
          return Ok;
        }
        current := created;
      }
      options := wanted;
      return Ok;
    }

    method Allocate(size: nat, alignment: nat, found: nat) returns (st: Status, p: nat)
      requires Valid() && found !in owner
      modifies this`owner, current
      ensures Valid()
      ensures st == Ok ==> p == found && p !in old(owner) && owner == old(owner)[p := current]
      ensures st == Ok ==> current.sizes == old(current.sizes)[p := size] && Counted(old(current.counters), current.counters, 1, 0, 0)
      ensures st != Ok ==> p == 0 && owner == old(owner) && Counted(old(current.counters), current.counters, 0, 0, 1)
      ensures st == Ok <==> size > 0 && alignment >= POINTER_BYTES && IsPowerOfTwo(alignment) && found != 0
    {
      hide IsPowerOfTwo;
      st, p := current.Allocate(size, alignment, found);
      if st == Ok { owner := owner[p := current]; }
    }

    // p is NULL or live.
    method Deallocate(p: nat)
      requires Valid() && (p == 0 || p in owner)
      modifies this`owner, current
      ensures Valid() && owner == old(owner) - {p} && current.sizes == old(current.sizes) - {p}
      ensures p != 0 ==> old(owner)[p] == current
      ensures Counted(old(current.counters), current.counters, 0, if p == 0 then 0 else 1, 0)
    {
      current.Deallocate(p);
      owner := owner - {p};
    }

    method ResetCurrentStats()
      requires Valid()
      modifies current
      ensures Valid() && current.sizes == old(current.sizes) && current.bytesInUse == old(current.bytesInUse)
      ensures current.counters == Counters(0, 0, 0, current.bytesInUse)
    {
      current.ResetStats();
    }
  }

  // The sum of positive sizes is zero only when there are none.
  lemma EmptyBooks(sizes: map<nat, nat>)
    requires forall p | p in sizes :: sizes[p] > 0
    ensures Sum(sizes) == 0 <==> sizes == map[]
  {
    SumIsZero(sizes);
    if sizes != map[] {
      var p := Pick(sizes.Keys);
    }
  }
}
