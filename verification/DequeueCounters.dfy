/**
 The optimistic and overcommit counters by which consumers share a producer's elements.

 Consumers mix single and bulk dequeues. Every load and every fetch_add of `tailIndex`,
 `headIndex`, `dequeueOptimisticCount` and `dequeueOvercommit` is one step. Indices are
 natural numbers; `CircularLessThan` ties comparisons of wrapped machine words to them.
 */
module DequeueCounters {
  import opened Modular
  import opened Sums

  type Tid = nat

  // ---------------------------------------------------------------------------------------
  // Machine words

  // `circular_less_than` on words of a given modulus (a power of two).
  predicate CircularLessThan(a: nat, b: nat, modulus: nat)
    requires modulus > 0
  {
    (a - b) % modulus > modulus / 2
  }

  // On the images of two indices it decides whether the second is ahead by less than half
  // the modulus.
  lemma CircularLessThanMeaning(a: int, b: int, modulus: nat)
    requires modulus > 0 && modulus % 2 == 0
    requires -(modulus / 2) < b - a < modulus / 2
    ensures CircularLessThan(a % modulus, b % modulus, modulus) <==> a < b
  {
    WordDifference(a, b, modulus);
    var d := a - b;
    if d < 0 {
      UniqueRemainder(d, modulus, -1, d + modulus);
    } else {
      UniqueRemainder(d, modulus, 0, d);
    }
  }

  // For arbitrary words it is true exactly when 0 < b - a < modulus / 2 around the circle.
  lemma CircularLessThanExact(a: nat, b: nat, modulus: nat)
    requires modulus > 0 && modulus % 2 == 0 && a < modulus && b < modulus
    ensures CircularLessThan(a, b, modulus) <==> 0 < (b - a) % modulus < modulus / 2
  {
    var d := a - b;
    if d < 0 {
      UniqueRemainder(d, modulus, -1, d + modulus);
      UniqueRemainder(-d, modulus, 0, -d);
    } else {
      UniqueRemainder(d, modulus, 0, d);
      if d > 0 {
        UniqueRemainder(-d, modulus, -1, modulus - d);
      }
    }
  }

  // ---------------------------------------------------------------------------------------
  // Steps

  // A consumer asking for at most `max` elements. A single dequeue is the case max == 1: its
  // tests and increments are those of the bulk form, as SingleIsBulkOfOne shows.
  datatype Pc =
    | Idle
    | LoadTail(max: nat)
    | LoadOver(max: nat, tail: nat)
    | LoadOptimistic(max: nat, tail: nat, over: nat)
    | Reserve(count: nat, over: nat)                    // fetch_add of the optimistic count
    | Recheck(count: nat, mine: nat, over: nat)         // second load of tailIndex
    | GiveBack(count: nat, granted: nat)                // fetch_add of the overcommit
    | Take(granted: nat)                                // fetch_add of headIndex

  // The range of indices a consumer obtained.
  datatype Claim = Claim(t: Tid, first: nat, count: nat)

  datatype State = State(
    tail: nat,
    head: nat,
    optimistic: nat,
    overcommit: nat,
    pc: map<Tid, Pc>,
    claims: seq<Claim>)
  {
    function Pc(t: Tid): Pc { if t in pc then pc[t] else Idle }
  }

  function Min(a: int, b: int): int { if a < b then a else b }

  // How many elements a bulk dequeue asks for; not positive when none seem available.
  function Desired(tail: nat, optimistic: nat, over: nat): int {
    tail - (optimistic - over)
  }

  function AfterRecheck(count: nat, mine: nat, over: nat, tail: nat): Pc {
    var actual := Desired(tail, mine, over);
    if actual <= 0 then GiveBack(count, 0)
    else if actual < count then GiveBack(count - actual, actual)
    else Take(count)
  }

  // What a step leaves behind.
  datatype Effect = Effect(pc: Pc, head: nat, optimistic: nat, overcommit: nat)

  // One atomic step of a consumer, given the shared counters it may read.
  function Local(pc: Pc, max: nat, tail: nat, head: nat, optimistic: nat, overcommit: nat): Effect {
    var same := Effect(pc, head, optimistic, overcommit);
    match pc
    case Idle => same.(pc := LoadTail(max))
    case LoadTail(m) => same.(pc := LoadOver(m, tail))
    case LoadOver(m, tl) => same.(pc := LoadOptimistic(m, tl, overcommit))
    case LoadOptimistic(m, tl, oc) =>
      var desired := Desired(tl, optimistic, oc);
      same.(pc := if desired > 0 then Reserve(Min(desired, m), oc) else Idle)
    case Reserve(d, oc) =>
      same.(optimistic := optimistic + d, pc := Recheck(d, optimistic, oc))
    case Recheck(d, my, oc) => same.(pc := AfterRecheck(d, my, oc, tail))
    case GiveBack(d, g) =>
      same.(overcommit := overcommit + d, pc := if g > 0 then Take(g) else Idle)
    case Take(g) => same.(head := head + g, pc := Idle)
  }

  function EffectOf(s: State, t: Tid, max: nat): Effect {
    Local(s.Pc(t), max, s.tail, s.head, s.optimistic, s.overcommit)
  }

  function Apply(s: State, t: Tid, e: Effect): State {
    State(s.tail, e.head, e.optimistic, e.overcommit, s.pc[t := e.pc],
          if s.Pc(t).Take? then s.claims + [Claim(t, s.head, s.Pc(t).granted)] else s.claims)
  }

  function ConsumerStep(s: State, t: Tid, max: nat): State {
    Apply(s, t, EffectOf(s, t, max))
  }

  // The producer publishes n more elements.
  function Publish(s: State, n: nat): State {
    s.(tail := s.tail + n)
  }

  // The steps of a single dequeue, with the tests and increments it uses itself.
  lemma SingleIsBulkOfOne(tail: nat, head: nat, optimistic: nat, overcommit: nat, seen: nat, mine: nat, over: nat)
    ensures var same := Effect(Idle, head, optimistic, overcommit);
      && Local(LoadOptimistic(1, seen, over), 1, tail, head, optimistic, overcommit)
         == same.(pc := if optimistic - over < seen then Reserve(1, over) else Idle)
      && Local(Reserve(1, over), 1, tail, head, optimistic, overcommit)
         == same.(pc := Recheck(1, optimistic, over), optimistic := optimistic + 1)
      && Local(Recheck(1, mine, over), 1, tail, head, optimistic, overcommit)
         == same.(pc := if mine - over < tail then Take(1) else GiveBack(1, 0))
      && Local(GiveBack(1, 0), 1, tail, head, optimistic, overcommit) == same.(overcommit := overcommit + 1)
      && Local(Take(1), 1, tail, head, optimistic, overcommit) == same.(head := head + 1)
  {
  }

  // ---------------------------------------------------------------------------------------
  // The invariant

  // Each unit added to the optimistic count is a ticket. The bookkeeping of the proof records
  // the tickets granted an element and those refused one.
  datatype Aux = Aux(granted: set<int>, refused: set<int>)

  function Undecided(pc: Pc): nat { if pc.Recheck? then pc.count else 0 }
  function Returning(pc: Pc): nat { if pc.GiveBack? then pc.count else 0 }
  function Entitled(pc: Pc): nat { if pc.GiveBack? || pc.Take? then pc.granted else 0 }

  // Reservations not yet turned into a claim or given back.
  ghost function Unresolved(s: State): nat {
    Sum(Weights(s.pc, Undecided)) + Sum(Weights(s.pc, Returning)) + Sum(Weights(s.pc, Entitled))
  }

  ghost predicate Within(tickets: set<int>, optimistic: nat) {
    forall x | x in tickets :: 0 <= x < optimistic
  }

  ghost predicate Sizes(s: State, a: Aux) {
    && |a.granted| == s.head + Sum(Weights(s.pc, Entitled))
    && |a.refused| == s.overcommit + Sum(Weights(s.pc, Returning))
    && s.optimistic == |a.granted| + |a.refused| + Sum(Weights(s.pc, Undecided))
    && a.granted !! a.refused
    && Within(a.granted, s.optimistic)
    && Within(a.refused, s.optimistic)
  }

  // The refused tickets below m.
  function Below(refused: set<int>, m: int): set<int> {
    set x | x in refused && x < m
  }

  // A granted ticket m leaves room for every granted ticket up to m.
  ghost predicate Covered(a: Aux, tail: nat) {
    forall m | m in a.granted :: m + 1 - |Below(a.refused, m)| <= tail
  }

  ghost predicate PcInv(s: State, a: Aux, pc: Pc) {
    match pc
    case LoadOptimistic(_, _, oc) => oc <= s.overcommit
    case Reserve(_, oc) => oc <= s.overcommit
    case Recheck(d, my, oc) =>
      && my + d <= s.optimistic
      && Open(a, my, my + d)
      && oc <= |Below(a.refused, my)|
    case _ => true
  }

  ghost predicate PcsInv(s: State, a: Aux) {
    && (forall t | t in s.pc :: PcInv(s, a, s.pc[t]))
    && (forall t, u | t in s.pc && u in s.pc && t != u && s.pc[t].Recheck? && s.pc[u].Recheck? ::
          s.pc[t].mine + s.pc[t].count <= s.pc[u].mine || s.pc[u].mine + s.pc[u].count <= s.pc[t].mine)
  }

  // The claims follow one another from index 0 up to the head index.
  ghost predicate Tiled(claims: seq<Claim>, head: nat)
    decreases |claims|
  {
    if claims == [] then head == 0 else
      var c := claims[|claims| - 1];
      c.first + c.count == head && Tiled(claims[..|claims| - 1], c.first)
  }

  ghost predicate Inv(s: State, a: Aux) {
    Sizes(s, a) && Covered(a, s.tail) && PcsInv(s, a) && Tiled(s.claims, s.head)
  }

  // The granted tickets up to the largest one fit below the tail index.
  lemma GrantedFit(a: Aux, tail: nat, optimistic: nat)
    requires a.granted !! a.refused && Covered(a, tail)
    requires Within(a.granted, optimistic) && Within(a.refused, optimistic)
    ensures |a.granted| <= tail
  {
    if a.granted != {} {
      var m := Maximum(a.granted);
      var below := Below(a.refused, m);
      assert a.granted + below <= Range(0, m + 1);
      SubsetSize(a.granted + below, Range(0, m + 1));
      RangeSize(0, m + 1);
    }
  }

  // ---------------------------------------------------------------------------------------
  // Preservation

  // A step of thread t moves only its own part of the sums.
  lemma SumsMove(pc: map<Tid, Pc>, t: Tid, q: Pc)
    requires t in pc
    ensures Sum(Weights(pc[t := q], Undecided)) == Sum(Weights(pc, Undecided)) + Undecided(q) - Undecided(pc[t])
    ensures Sum(Weights(pc[t := q], Returning)) == Sum(Weights(pc, Returning)) + Returning(q) - Returning(pc[t])
    ensures Sum(Weights(pc[t := q], Entitled)) == Sum(Weights(pc, Entitled)) + Entitled(q) - Entitled(pc[t])
  {
    WeightMove(pc, Undecided, t, q);
    WeightMove(pc, Returning, t, q);
    WeightMove(pc, Entitled, t, q);
  }

  // Only the recheck decides tickets: the first `granted` ones of the range, then the rest.
  ghost function Track(s: State, a: Aux, t: Tid): Aux {
    match s.Pc(t)
    case Recheck(d, my, oc) =>
      var g := Entitled(AfterRecheck(d, my, oc, s.tail));
      Split(a, my, g, d)
    case _ => a
  }

  lemma RecheckSplits(d: nat, my: nat, oc: nat, tail: nat)
    requires oc <= my
    ensures var q := AfterRecheck(d, my, oc, tail);
      && Entitled(q) + Returning(q) == d && Undecided(q) == 0
      && my + Entitled(q) - oc <= if Entitled(q) > 0 then tail else my
  {
  }

  ghost predicate Open(a: Aux, lo: nat, hi: nat) {
    forall x | lo <= x < hi :: x !in a.granted && x !in a.refused
  }

  // The first g of d open tickets are granted, the others refused.
  ghost function Split(a: Aux, my: nat, g: nat, d: nat): Aux {
    Aux(a.granted + Range(my, my + g), a.refused + Range(my + g, my + d))
  }

  lemma GrantedSize(a: Aux, my: nat, g: nat, d: nat)
    requires g <= d && Open(a, my, my + d)
    ensures |Split(a, my, g, d).granted| == |a.granted| + g
  {
    AddRange(a.granted, my, my + g);
  }

  lemma RefusedSize(a: Aux, my: nat, g: nat, d: nat)
    requires g <= d && Open(a, my, my + d)
    ensures |Split(a, my, g, d).refused| == |a.refused| + d - g
  {
    AddRange(a.refused, my + g, my + d);
  }

  lemma SplitApart(a: Aux, my: nat, g: nat, d: nat, optimistic: nat)
    requires a.granted !! a.refused && Within(a.granted, optimistic) && Within(a.refused, optimistic)
    requires g <= d && my + d <= optimistic && Open(a, my, my + d)
    ensures var a' := Split(a, my, g, d);
      a'.granted !! a'.refused && Within(a'.granted, optimistic) && Within(a'.refused, optimistic)
  {
  }

  lemma DecideSizes(s: State, a: Aux, t: Tid)
    requires Inv(s, a) && t in s.pc && s.pc[t].Recheck?
    ensures Sizes(ConsumerStep(s, t, 0), Track(s, a, t))
  {
    var Recheck(d, my, oc) := s.pc[t];
    var g := Entitled(AfterRecheck(d, my, oc, s.tail));
    assert PcInv(s, a, s.pc[t]);
    BelowSmall(a.refused, my, s.optimistic);
    RecheckSplits(d, my, oc, s.tail);
    GrantedSize(a, my, g, d);
    RefusedSize(a, my, g, d);
    SplitApart(a, my, g, d, s.optimistic);
    SizesMove(s, a, t, EffectOf(s, t, 0), Split(a, my, g, d));
  }

  // The sums follow the step when its thread's part does.
  lemma SizesMove(s: State, a: Aux, t: Tid, e: Effect, a': Aux)
    requires Sizes(s, a) && t in s.pc
    requires |a'.granted| - |a.granted| == e.head + Entitled(e.pc) - s.head - Entitled(s.pc[t])
    requires |a'.refused| - |a.refused| == e.overcommit + Returning(e.pc) - s.overcommit - Returning(s.pc[t])
    requires e.optimistic - s.optimistic ==
             |a'.granted| - |a.granted| + |a'.refused| - |a.refused| + Undecided(e.pc) - Undecided(s.pc[t])
    requires a'.granted !! a'.refused && Within(a'.granted, e.optimistic) && Within(a'.refused, e.optimistic)
    ensures Sizes(Apply(s, t, e), a')
  {
    SumsMove(s.pc, t, e.pc);
  }

  lemma BelowSmall(refused: set<int>, m: nat, optimistic: nat)
    requires Within(refused, optimistic)
    ensures |Below(refused, m)| <= m
  {
    SubsetSize(Below(refused, m), Range(0, m));
    RangeSize(0, m);
  }

  lemma BelowGrows(r: set<int>, r': set<int>, m: int)
    requires r <= r'
    ensures |Below(r, m)| <= |Below(r', m)|
  {
    SubsetSize(Below(r, m), Below(r', m));
  }

  lemma DecideCovered(s: State, a: Aux, t: Tid)
    requires Inv(s, a) && t in s.pc && s.pc[t].Recheck?
    ensures Covered(Track(s, a, t), s.tail)
  {
    var Recheck(d, my, oc) := s.pc[t];
    var g := Entitled(AfterRecheck(d, my, oc, s.tail));
    var a' := Track(s, a, t);
    assert PcInv(s, a, s.pc[t]);
    BelowSmall(a.refused, my, s.optimistic);
    RecheckSplits(d, my, oc, s.tail);
    forall m | m in a'.granted ensures m + 1 - |Below(a'.refused, m)| <= s.tail {
      BelowGrows(a.refused, a'.refused, m);
      if m !in a.granted {
        SubsetSize(Below(a.refused, my), Below(a'.refused, m));
      }
    }
  }

  // The other program counters survive new decisions and larger counters.
  lemma PcFrame(s: State, a: Aux, s': State, a': Aux, pc: Pc)
    requires PcInv(s, a, pc)
    requires s.overcommit <= s'.overcommit && s.tail <= s'.tail && s.optimistic <= s'.optimistic
    requires a.refused <= a'.refused
    requires pc.Recheck? ==> forall x | pc.mine <= x < pc.mine + pc.count ::
               (x in a'.granted ==> x in a.granted) && (x in a'.refused ==> x in a.refused)
    ensures PcInv(s', a', pc)
  {
    if pc.Recheck? {
      BelowGrows(a.refused, a'.refused, pc.mine);
    }
  }

  lemma DecidePcs(s: State, a: Aux, t: Tid)
    requires Inv(s, a) && t in s.pc && s.pc[t].Recheck?
    ensures PcsInv(ConsumerStep(s, t, 0), Track(s, a, t))
  {
    hide Sizes, Covered, Tiled, PcsInv, Below, Track;
    DecideAdds(s, a, t);
    PcsMove(s, a, t, EffectOf(s, t, 0), Track(s, a, t));
  }

  // The recheck decides tickets of its own range only.
  lemma DecideAdds(s: State, a: Aux, t: Tid)
    requires t in s.pc && s.pc[t].Recheck?
    ensures var a' := Track(s, a, t);
      && a.refused <= a'.refused
      && (forall x | (x in a'.granted && x !in a.granted) || (x in a'.refused && x !in a.refused) ::
            s.pc[t].mine <= x < s.pc[t].mine + s.pc[t].count)
  {
  }

  // A step that leaves no reservation of its thread open.
  lemma PcsMove(s: State, a: Aux, t: Tid, e: Effect, a': Aux)
    requires PcsInv(s, a) && t in s.pc && PcInv(Apply(s, t, e), a', e.pc) && !e.pc.Recheck?
    requires s.overcommit <= e.overcommit && s.optimistic <= e.optimistic && a.refused <= a'.refused
    requires s.pc[t].Recheck? || a == a'
    requires forall x | (x in a'.granted && x !in a.granted) || (x in a'.refused && x !in a.refused) ::
               s.pc[t].Recheck? && s.pc[t].mine <= x < s.pc[t].mine + s.pc[t].count
    ensures PcsInv(Apply(s, t, e), a')
  {
    var s' := Apply(s, t, e);
    forall u | u in s'.pc ensures PcInv(s', a', s'.pc[u]) {
      if u != t {
        PcFrame(s, a, s', a', s.pc[u]);
      }
    }
  }

  lemma DecideInv(s: State, a: Aux, t: Tid)
    requires Inv(s, a) && t in s.pc && s.pc[t].Recheck?
    ensures Inv(ConsumerStep(s, t, 0), Track(s, a, t))
  {
    DecideSizes(s, a, t);
    DecideCovered(s, a, t);
    DecidePcs(s, a, t);
  }

  // The steps that decide no ticket.
  lemma PlainBalance(pc: Pc, max: nat, tail: nat, head: nat, optimistic: nat, overcommit: nat)
    requires !pc.Recheck?
    ensures var e := Local(pc, max, tail, head, optimistic, overcommit);
      && e.head + Entitled(e.pc) == head + Entitled(pc)
      && e.overcommit + Returning(e.pc) == overcommit + Returning(pc)
      && e.optimistic - Undecided(e.pc) == optimistic - Undecided(pc)
      && e.optimistic >= optimistic && e.overcommit >= overcommit
  {
  }

  lemma PlainSizes(s: State, a: Aux, t: Tid, max: nat)
    requires Inv(s, a) && t in s.pc && !s.pc[t].Recheck?
    ensures Sizes(ConsumerStep(s, t, max), a)
  {
    PlainBalance(s.pc[t], max, s.tail, s.head, s.optimistic, s.overcommit);
    SizesMove(s, a, t, EffectOf(s, t, max), a);
  }

  lemma PlainPcs(s: State, a: Aux, t: Tid, max: nat)
    requires Inv(s, a) && t in s.pc && !s.pc[t].Recheck?
    ensures PcsInv(ConsumerStep(s, t, max), a)
  {
    var s' := ConsumerStep(s, t, max);
    assert PcInv(s, a, s.pc[t]);
    forall u | u in s'.pc ensures PcInv(s', a, s'.pc[u]) {
      if u != t {
        PcFrame(s, a, s', a, s.pc[u]);
      } else if s.pc[t].Reserve? {
        assert Below(a.refused, s.optimistic) == a.refused;
      }
    }
    if s.pc[t].Reserve? {
      forall u | u in s.pc && s.pc[u].Recheck? ensures s.pc[u].mine + s.pc[u].count <= s.optimistic {
        assert PcInv(s, a, s.pc[u]);
      }
    }
  }

  lemma ConsumerInv(s: State, a: Aux, t: Tid, max: nat)
    requires Inv(s, a) && t in s.pc
    ensures Inv(ConsumerStep(s, t, max), Track(s, a, t))
  {
    hide Sizes, Covered, PcsInv;
    if s.pc[t].Recheck? {
      DecideInv(s, a, t);
    } else {
      PlainSizes(s, a, t, max);
      PlainPcs(s, a, t, max);
      if s.pc[t].Take? {
        assert ConsumerStep(s, t, max).claims[..|s.claims|] == s.claims;
      }
    }
  }

  lemma PublishInv(s: State, a: Aux, n: nat)
    requires Inv(s, a)
    ensures Inv(Publish(s, n), a)
  {
    forall u | u in s.pc ensures PcInv(Publish(s, n), a, s.pc[u]) {
      PcFrame(s, a, Publish(s, n), a, s.pc[u]);
    }
  }

  // ---------------------------------------------------------------------------------------
  // Runs

  ghost predicate Init(s: State) {
    && s.tail == 0 && s.head == 0 && s.optimistic == 0 && s.overcommit == 0
    && s.claims == []
    && (forall t | t in s.pc :: s.pc[t] == Idle)
  }

  datatype Event = Produce(n: nat) | Consume(t: Tid, max: nat)

  ghost predicate Run(s: State, events: seq<Event>, s': State)
    decreases |events|
  {
    if events == [] then s' == s else
      match events[0]
      case Produce(n) => Run(Publish(s, n), events[1..], s')
      case Consume(t, max) => t in s.pc && Run(ConsumerStep(s, t, max), events[1..], s')
  }

  ghost predicate Reachable(s: State) {
    exists s0, events :: Init(s0) && Run(s0, events, s)
  }

  lemma InitInv(s: State)
    requires Init(s)
    ensures Inv(s, Aux({}, {}))
  {
    SumIsZero(Weights(s.pc, Undecided));
    SumIsZero(Weights(s.pc, Returning));
    SumIsZero(Weights(s.pc, Entitled));
  }

  lemma {:induction false} RunInv(s: State, a: Aux, events: seq<Event>, s': State) returns (a': Aux)
    requires Inv(s, a) && Run(s, events, s')
    ensures Inv(s', a')
    decreases |events|
  {
    if events == [] {
      a' := a;
    } else {
      match events[0] {
        case Produce(n) =>
          PublishInv(s, a, n);
          a' := RunInv(Publish(s, n), a, events[1..], s');
        case Consume(t, max) =>
          ConsumerInv(s, a, t, max);
          a' := RunInv(ConsumerStep(s, t, max), Track(s, a, t), events[1..], s');
      }
    }
  }

  lemma ReachableInv(s: State) returns (a: Aux)
    requires Reachable(s)
    ensures Inv(s, a)
  {
    var s0, events :| Init(s0) && Run(s0, events, s);
    InitInv(s0);
    a := RunInv(s0, Aux({}, {}), events, s);
  }

  // The optimistic count is the head index, the overcommit and the unresolved reservations.
  lemma CountersBalance(s: State)
    requires Reachable(s)
    ensures s.optimistic == s.head + s.overcommit + Unresolved(s)
  {
    var a := ReachableInv(s);
  }

  // A dequeue gives up exactly when the elements it saw published are all claimed or reserved,
  // not counting reservations given back since it looked; otherwise it reserves as many of the
  // others as it may take.
  lemma GivesUpExactly(s: State, t: Tid, max: nat)
    requires Reachable(s) && s.Pc(t).LoadOptimistic?
    ensures var LoadOptimistic(m, seen, over) := s.Pc(t);
      var free := seen - s.head - Unresolved(s) - (s.overcommit - over);
      ConsumerStep(s, t, max).Pc(t) == if free <= 0 then Idle else Reserve(if free < m then free else m, over)
  {
    hide Reachable;
    CountersBalance(s);
  }

  // The second look at the tail grants as many of the d reserved tickets as lie below it.
  lemma RecheckGrants(s: State, t: Tid, max: nat)
    requires s.Pc(t).Recheck?
    ensures var Recheck(d, mine, over) := s.Pc(t);
      var below, q := s.tail - (mine - over), ConsumerStep(s, t, max).Pc(t);
      && Entitled(q) == (if below <= 0 then 0 else if below < d then below else d)
      && Returning(q) == d - Entitled(q)
      && (q.Take? || (q.GiveBack? && ConsumerStep(ConsumerStep(s, t, max), t, max).Pc(t)
                                     == if Entitled(q) > 0 then Take(Entitled(q)) else Idle))
  {
  }

  // Whatever the consumers are still entitled to lies below the tail index, so the fetch_add
  // of headIndex never passes it.
  lemma HeadNeverPassesTail(s: State)
    requires Reachable(s)
    ensures s.head + Sum(Weights(s.pc, Entitled)) <= s.tail
    ensures forall t | t in s.pc && s.pc[t].Take? :: s.head + s.pc[t].granted <= s.tail
  {
    var a := ReachableInv(s);
    GrantedFit(a, s.tail, s.optimistic);
    forall t | t in s.pc && s.pc[t].Take? ensures s.pc[t].granted <= Sum(Weights(s.pc, Entitled)) {
      SumRemove(Weights(s.pc, Entitled), t);
    }
  }

  predicate Claims(c: Claim, i: nat) {
    c.first <= i < c.first + c.count
  }

  // Every index below the head is in exactly one claim, and no claim reaches beyond it.
  lemma {:induction false} TiledOnce(claims: seq<Claim>, head: nat, i: nat)
    requires Tiled(claims, head)
    ensures i < head ==> exists j :: 0 <= j < |claims| && Claims(claims[j], i)
    ensures forall j | 0 <= j < |claims| && Claims(claims[j], i) :: i < head
    ensures forall j, k | 0 <= j < k < |claims| :: !(Claims(claims[j], i) && Claims(claims[k], i))
    decreases |claims|
  {
    if claims != [] {
      var n := |claims| - 1;
      TiledOnce(claims[..n], claims[n].first, i);
      if i < claims[n].first {
        var j :| 0 <= j < n && Claims(claims[..n][j], i);
        assert Claims(claims[j], i);
      } else if i < head {
        assert Claims(claims[n], i);
      }
      forall j | 0 <= j < |claims| && Claims(claims[j], i) ensures i < head {
        if j < n { assert claims[j] == claims[..n][j]; }
      }
      forall j, k | 0 <= j < k < |claims| ensures !(Claims(claims[j], i) && Claims(claims[k], i)) {
        assert claims[j] == claims[..n][j];
        if k < n { assert claims[k] == claims[..n][k]; }
      }
    }
  }

  lemma EachIndexClaimedOnce(s: State, i: nat)
    requires Reachable(s)
    ensures i < s.head <==> exists j :: 0 <= j < |s.claims| && Claims(s.claims[j], i)
    ensures forall j, k | 0 <= j < k < |s.claims| :: !(Claims(s.claims[j], i) && Claims(s.claims[k], i))
    ensures forall j | 0 <= j < |s.claims| && Claims(s.claims[j], i) :: i < s.tail
  {
    var a := ReachableInv(s);
    TiledOnce(s.claims, s.head, i);
    HeadNeverPassesTail(s);
  }
}
