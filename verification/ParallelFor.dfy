/**
 How ParallelFor cuts an index range into chunks, in size_t arithmetic.
 */
module ParallelFor {
  import opened Modular

  const SIZE_T: nat := 0x1_0000_0000_0000_0000

  datatype Status = Ok | InvalidArgument | Refused

  datatype Chunk = Chunk(first: nat, last: nat)      // indices first .. last - 1

  // first, first + 1, ..., last - 1: the indices a chunk's loop passes to the body.
  function Indices(first: nat, last: nat): seq<nat>
    decreases last - first
  {
    if first < last then [first] + Indices(first + 1, last) else []
  }

  function AllIndices(chunks: seq<Chunk>): seq<nat> {
    if chunks == [] then []
    else AllIndices(chunks[..|chunks| - 1]) + Indices(chunks[|chunks| - 1].first, chunks[|chunks| - 1].last)
  }

  // The start of the last chunk.
  function LastStart(begin: nat, end: nat, grain: nat): nat
    requires begin < end && grain > 0
  {
    begin + (end - begin - 1) / grain * grain
  }

  // No sum in the loop passes the largest size_t.
  predicate NoWrap(begin: nat, end: nat, grain: nat)
    requires begin < end && grain > 0
  {
    LastStart(begin, end, grain) + grain < SIZE_T
  }

  lemma LastStartBounds(begin: nat, end: nat, grain: nat)
    requires begin < end && grain > 0
    ensures begin <= LastStart(begin, end, grain) < end <= LastStart(begin, end, grain) + grain
  {
    var q := (end - begin - 1) / grain;
    assert end - begin - 1 == q * grain + (end - begin - 1) % grain;
    assert q * grain >= 0;
  }

  // Every chunk start is at most the last one.
  lemma StartsBelowLast(begin: nat, end: nat, grain: nat, k: nat)
    requires begin < end && grain > 0 && begin + k * grain < end
    ensures begin + k * grain <= LastStart(begin, end, grain)
  {
    var q := (end - begin - 1) / grain;
    assert end - begin - 1 == q * grain + (end - begin - 1) % grain;
    if k > q {
      assert (k - q) * grain == k * grain - q * grain;
      Multiple(k - q, grain);
    } else {
      assert (q - k) * grain == q * grain - k * grain;
      assert (q - k) * grain >= 0;
    }
  }

  // The end of the chunk that starts at first.
  function ChunkEnd(first: nat, grain: nat, end: nat): nat {
    var sum := (first + grain) % SIZE_T;
    if sum < end then sum else end
  }

  lemma {:induction false} IndicesJoin(a: nat, b: nat, c: nat)
    requires a <= b <= c
    ensures Indices(a, b) + Indices(b, c) == Indices(a, c)
    decreases b - a
  {
    if a < b {
      IndicesJoin(a + 1, b, c);
      assert [a] + Indices(a + 1, b) + Indices(b, c) == [a] + (Indices(a + 1, b) + Indices(b, c));
    } else {
      assert Indices(a, b) == [];
    }
  }

  lemma OneMoreChunk(chunks: seq<Chunk>, c: Chunk)
    ensures AllIndices(chunks + [c]) == AllIndices(chunks) + Indices(c.first, c.last)
  {
    assert (chunks + [c])[..|chunks + [c]| - 1] == chunks;
  }

  // ---------------------------------------------------------------------------------------
  // The loop for all arguments

  function NextStart(first: nat, grain: nat): nat {
    (first + grain) % SIZE_T
  }

  // The loop, at start `first`, submits exactly these chunks and then ends.
  ghost predicate LoopEnds(first: nat, end: nat, grain: nat, chunks: seq<Chunk>)
    decreases |chunks|
  {
    if chunks == [] then first >= end
    else first < end && chunks[0] == Chunk(first, ChunkEnd(first, grain, end))
         && LoopEnds(NextStart(first, grain), end, grain, chunks[1..])
  }

  // The loop, at start `first`, submits these chunks and is then at `next`.
  ghost predicate LoopRan(first: nat, end: nat, grain: nat, chunks: seq<Chunk>, next: nat)
    decreases |chunks|
  {
    if chunks == [] then next == first
    else first < end && chunks[0] == Chunk(first, ChunkEnd(first, grain, end))
         && LoopRan(NextStart(first, grain), end, grain, chunks[1..], next)
  }

  lemma {:induction false} LoopGoesOn(first: nat, end: nat, grain: nat, chunks: seq<Chunk>, next: nat)
    requires LoopRan(first, end, grain, chunks, next) && next < end
    ensures LoopRan(first, end, grain, chunks + [Chunk(next, ChunkEnd(next, grain, end))], NextStart(next, grain))
    decreases |chunks|
  {
    var longer := chunks + [Chunk(next, ChunkEnd(next, grain, end))];
    if chunks == [] {
      assert longer[1..] == [];
    } else {
      LoopGoesOn(NextStart(first, grain), end, grain, chunks[1..], next);
      assert longer[1..] == chunks[1..] + [Chunk(next, ChunkEnd(next, grain, end))];
    }
  }

  lemma {:induction false} LoopStops(first: nat, end: nat, grain: nat, chunks: seq<Chunk>, next: nat)
    requires LoopRan(first, end, grain, chunks, next) && next >= end
    ensures LoopEnds(first, end, grain, chunks)
    decreases |chunks|
  {
    if chunks != [] { LoopStops(NextStart(first, grain), end, grain, chunks[1..], next); }
  }

  // The chunks pass every index of the range to the body exactly once, in whatever order.
  ghost predicate Partition(chunks: seq<Chunk>, begin: nat, end: nat) {
    multiset(AllIndices(chunks)) == multiset(Indices(begin, end))
  }

  lemma {:induction false} FirstChunk(c: Chunk, chunks: seq<Chunk>)
    ensures AllIndices([c] + chunks) == Indices(c.first, c.last) + AllIndices(chunks)
    decreases |chunks|
  {
    if chunks == [] {
      assert [c] + chunks == [] + [c];
      OneMoreChunk([], c);
    } else {
      var front, d := chunks[..|chunks| - 1], chunks[|chunks| - 1];
      assert [c] + chunks == ([c] + front) + [d];
      OneMoreChunk([c] + front, d);
      FirstChunk(c, front);
    }
  }

  // One iteration.
  lemma LoopStep(first: nat, end: nat, grain: nat, rest: seq<Chunk>)
    requires first < end && LoopEnds(NextStart(first, grain), end, grain, rest)
    ensures LoopEnds(first, end, grain, [Chunk(first, ChunkEnd(first, grain, end))] + rest)
    ensures AllIndices([Chunk(first, ChunkEnd(first, grain, end))] + rest)
         == Indices(first, ChunkEnd(first, grain, end)) + AllIndices(rest)
  {
    var c := Chunk(first, ChunkEnd(first, grain, end));
    assert ([c] + rest)[1..] == rest;
    FirstChunk(c, rest);
  }

  lemma LoopUnstep(first: nat, end: nat, grain: nat, chunks: seq<Chunk>)
    requires first < end && LoopEnds(first, end, grain, chunks)
    ensures chunks != [] && LoopEnds(NextStart(first, grain), end, grain, chunks[1..])
    ensures AllIndices(chunks) == Indices(first, ChunkEnd(first, grain, end)) + AllIndices(chunks[1..])
  {
    assert chunks == [chunks[0]] + chunks[1..];
    FirstChunk(chunks[0], chunks[1..]);
  }

  lemma OneFewer(m: nat, grain: nat)
    requires m > 0
    ensures m * grain == (m - 1) * grain + grain && (m - 1) * grain >= 0
  {
  }

  lemma NoIndices(first: nat, last: nat)
    requires last <= first
    ensures Indices(first, last) == []
  {
  }

  // Without a wrap the loop ends with a partition.
  lemma {:induction false} LoopPartitions(first: nat, m: nat, last: nat, end: nat, grain: nat) returns (chunks: seq<Chunk>)
    requires first + m * grain == last < end <= last + grain < SIZE_T && 0 < grain
    ensures LoopEnds(first, end, grain, chunks) && AllIndices(chunks) == Indices(first, end)
    decreases m
  {
    hide LoopEnds, AllIndices, Indices;
    var rest: seq<Chunk>;
    if m == 0 {
      rest := [];
      EndOfLoop(first + grain, end, grain);
      IndicesJoin(first, end, end);
      NoIndices(end, end);
    } else {
      OneFewer(m, grain);
      rest := LoopPartitions(first + grain, m - 1, last, end, grain);
      IndicesJoin(first, first + grain, end);
    }
    LoopStep(first, end, grain, rest);
    chunks := [Chunk(first, ChunkEnd(first, grain, end))] + rest;
  }

  lemma EndOfLoop(first: nat, end: nat, grain: nat)
    requires first >= end
    ensures LoopEnds(first, end, grain, []) && AllIndices([]) == []
  {
  }

  // Once a sum has wrapped, the next index passed to the body is not above the loop's start.
  lemma {:induction false} AfterWrap(first: nat, end: nat, grain: nat, chunks: seq<Chunk>)
    requires first < end < SIZE_T && 0 < grain < SIZE_T && LoopEnds(first, end, grain, chunks)
    ensures AllIndices(chunks) != [] && AllIndices(chunks)[0] <= first
    decreases first
  {
    hide LoopEnds, AllIndices;
    LoopUnstep(first, end, grain, chunks);
    if first + grain >= SIZE_T {
      UniqueRemainder(first + grain, SIZE_T, 1, first + grain - SIZE_T);
      NoIndices(first, first + grain - SIZE_T);
      AfterWrap(first + grain - SIZE_T, end, grain, chunks[1..]);
    } else {
      assert Indices(first, ChunkEnd(first, grain, end))[0] == first;
    }
  }

  // When the sum at the last start wraps, the loop covers the indices below that start and
  // then goes on with one that is not above it.
  lemma {:induction false} WrappedLoop(first: nat, m: nat, last: nat, end: nat, grain: nat, chunks: seq<Chunk>) returns (rest: seq<nat>)
    requires first + m * grain == last < end < SIZE_T && 0 < grain < SIZE_T && last + grain >= SIZE_T
    requires LoopEnds(first, end, grain, chunks)
    ensures AllIndices(chunks) == Indices(first, last) + rest && rest != [] && rest[0] < last
    decreases m
  {
    hide LoopEnds, AllIndices, Indices;
    assert m * grain >= 0;
    LoopUnstep(first, end, grain, chunks);
    if m == 0 {
      UniqueRemainder(first + grain, SIZE_T, 1, first + grain - SIZE_T);
      NoIndices(first, first + grain - SIZE_T);
      NoIndices(first, last);
      AfterWrap(first + grain - SIZE_T, end, grain, chunks[1..]);
      rest := AllIndices(chunks[1..]);
    } else {
      OneFewer(m, grain);
      rest := WrappedLoop(first + grain, m - 1, last, end, grain, chunks[1..]);
      IndicesJoin(first, first + grain, last);
      assert Indices(first, first + grain) + (Indices(first + grain, last) + rest)
          == Indices(first, first + grain) + Indices(first + grain, last) + rest;
    }
  }

  lemma {:induction false} IndexCount(first: nat, last: nat, i: nat)
    ensures multiset(Indices(first, last))[i] == if first <= i < last then 1 else 0
    decreases last - first
  {
    if first < last {
      IndexCount(first + 1, last, i);
      FirstCount(first, Indices(first + 1, last), i);
    }
  }

  lemma FirstCount(x: nat, s: seq<nat>, i: nat)
    ensures multiset([x] + s)[i] == multiset(s)[i] + if i == x then 1 else 0
  {
  }

  // So some index is passed to the body twice, or one outside the range is.
  lemma WrapBreaksPartition(begin: nat, end: nat, grain: nat, chunks: seq<Chunk>)
    requires begin < end < SIZE_T && 0 < grain < SIZE_T && !NoWrap(begin, end, grain)
    requires LoopEnds(begin, end, grain, chunks)
    ensures !Partition(chunks, begin, end)
  {
    hide AllIndices, Indices, LoopEnds;
    var last := LastStart(begin, end, grain);
    LastStartBounds(begin, end, grain);
    var rest := WrappedLoop(begin, (end - begin - 1) / grain, last, end, grain, chunks);
    var i := rest[0];
    assert rest == [i] + rest[1..];
    IndexCount(begin, last, i);
    IndexCount(begin, end, i);
    assert multiset(AllIndices(chunks)) == multiset(Indices(begin, last)) + multiset{i} + multiset(rest[1..]);
  }

  // The loop ends after handing each index of the range to the body exactly once if and only if
  // no sum wraps.
  lemma PartitionIffNoWrap(begin: nat, end: nat, grain: nat)
    requires begin < end < SIZE_T && 0 < grain < SIZE_T
    ensures (exists chunks :: LoopEnds(begin, end, grain, chunks) && Partition(chunks, begin, end)) <==> NoWrap(begin, end, grain)
  {
    hide AllIndices, Indices, LoopEnds;
    if NoWrap(begin, end, grain) {
      LastStartBounds(begin, end, grain);
      var chunks := LoopPartitions(begin, (end - begin - 1) / grain, LastStart(begin, end, grain), end, grain);
      assert LoopEnds(begin, end, grain, chunks) && Partition(chunks, begin, end);
    } else {
      forall chunks | LoopEnds(begin, end, grain, chunks) ensures !Partition(chunks, begin, end) {
        WrapBreaksPartition(begin, end, grain, chunks);
      }
    }
  }

  // The range 1 .. 1 with the largest grain: index 0 is passed to the body as well.
  lemma WrapRunsOutside()
    ensures LoopEnds(1, 2, SIZE_T - 1, [Chunk(1, 0), Chunk(0, 2)])
    ensures AllIndices([Chunk(1, 0), Chunk(0, 2)]) == [0, 1] && !Partition([Chunk(1, 0), Chunk(0, 2)], 1, 2)
  {
    var a, b := Chunk(1, 0), Chunk(0, 2);
    assert [a, b][1..] == [b] && [b][1..] == [];
    OneMoreChunk([], a);
    OneMoreChunk([a], b);
    assert [] + [a] == [a] && [a] + [b] == [a, b];
    assert Indices(0, 2) == [0] + Indices(1, 2) && Indices(1, 2) == [1] + Indices(2, 2);
    assert multiset([0, 1])[0] == 1 && multiset(Indices(1, 2)) == multiset([1]);
  }

  // With half the word as begin and grain, the starts alternate below the end for ever.
  lemma {:induction false} WrapNeverEnds(chunks: seq<Chunk>)
    ensures !LoopEnds(SIZE_T / 2, SIZE_T - 1, SIZE_T / 2, chunks) && !LoopEnds(0, SIZE_T - 1, SIZE_T / 2, chunks)
    decreases |chunks|
  {
    if chunks != [] { WrapNeverEnds(chunks[1..]); }
  }

  // ---------------------------------------------------------------------------------------
  // The submissions

  function Grain(requested: nat): (g: nat)
    ensures g > 0 && (g == requested || (requested == 0 && g == 1))
  {
    if requested == 0 then 1 else requested
  }

  // What the loop has done without a wrap.
  ghost predicate Covered(begin: nat, end: nat, grain: nat, chunks: seq<Chunk>, first: nat) {
    && begin <= first && first == begin + |chunks| * grain
    && AllIndices(chunks) == Indices(begin, if first < end then first else end)
  }

  lemma CoversMore(begin: nat, end: nat, grain: nat, chunks: seq<Chunk>, first: nat)
    requires grain > 0 && begin < end && NoWrap(begin, end, grain) && Covered(begin, end, grain, chunks, first) && first < end
    ensures Covered(begin, end, grain, chunks + [Chunk(first, ChunkEnd(first, grain, end))], NextStart(first, grain))
  {
    hide AllIndices, Indices;
    StartsBelowLast(begin, end, grain, |chunks|);
    assert (first + grain) % SIZE_T == first + grain;
    OneMoreChunk(chunks, Chunk(first, ChunkEnd(first, grain, end)));
    IndicesJoin(begin, first, ChunkEnd(first, grain, end));
    assert (|chunks| + 1) * grain == |chunks| * grain + grain;
  }

  // The chunks handed to the executor, which takes the first `accepts` of them and refuses the
  // next. Without a wrap they pass every index of the range, or of a prefix of it when a
  // submission is refused, to the body exactly once and in order.
  method SubmitChunks(begin: nat, end: nat, requested: nat, accepts: nat) returns (st: Status, chunks: seq<Chunk>)
    requires begin < SIZE_T && end < SIZE_T && requested < SIZE_T
    ensures end < begin ==> st == InvalidArgument && chunks == []
    ensures begin == end ==> st == Ok && chunks == []
    ensures begin < end ==> st == Ok || (st == Refused && |chunks| == accepts)
    ensures begin < end && st == Ok ==> LoopEnds(begin, end, Grain(requested), chunks) && |chunks| <= accepts
    ensures begin < end && st == Refused ==> exists next: nat :: next < end && LoopRan(begin, end, Grain(requested), chunks, next)
    ensures begin < end && NoWrap(begin, end, Grain(requested)) && st == Ok ==> AllIndices(chunks) == Indices(begin, end)
    ensures begin < end && NoWrap(begin, end, Grain(requested)) && st == Refused ==>
      exists m :: begin <= m < end && AllIndices(chunks) == Indices(begin, m)
  {
    hide LoopRan, LoopEnds, AllIndices, Indices, NoWrap;
    chunks := [];
    if end < begin { return InvalidArgument, chunks; }
    if begin == end { return Ok, chunks; }
    var grain := Grain(requested);
    var first: nat := begin;
    NothingSubmitted(begin, end, grain);
    while first < end
      invariant LoopRan(begin, end, grain, chunks, first) && |chunks| <= accepts
      invariant NoWrap(begin, end, grain) ==> Covered(begin, end, grain, chunks, first)
      decreases accepts - |chunks|, if first < end then 1 else 0
    {
      if |chunks| == accepts { return Refused, chunks; }
      LoopGoesOn(begin, end, grain, chunks, first);
      if NoWrap(begin, end, grain) { CoversMore(begin, end, grain, chunks, first); }
      chunks := chunks + [Chunk(first, ChunkEnd(first, grain, end))];
      first := NextStart(first, grain);
    }
    LoopStops(begin, end, grain, chunks, first);
    return Ok, chunks;
  }

  lemma NothingSubmitted(begin: nat, end: nat, grain: nat)
    ensures LoopRan(begin, end, grain, [], begin)
    ensures begin < end ==> Covered(begin, end, grain, [], begin)
  {
  }
}
