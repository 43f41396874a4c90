/**
 When a drained ring accepts every legal message.
 */
module ChannelProgress {
  import opened Modular
  import opened RingSizing
  import opened RingLayout
  import opened ShmChannel
  import opened ChannelSteps
  import opened ChannelRuns

  // ---------------------------------------------------------------------------------------
  // Two frames' worth of ring

  lemma TwoStrides(cfg: Config)
    requires Opened(cfg) && cfg.capacity >= 2
    ensures 2 * FrameBytes(cfg.maxBytes) <= cfg.size
  {
    hide FrameBytes, NextPow2;
    GoodRingFacts(cfg.capacity, cfg.maxBytes, cfg.size);
    ProductGrows(2, cfg.capacity, FrameBytes(cfg.maxBytes));
  }

  // With room for two messages a drained ring takes any message at any aligned position.
  lemma DrainedRingAccepts(cfg: Config, w: nat, n: nat)
    requires Opened(cfg) && cfg.capacity >= 2 && w % 8 == 0 && n <= cfg.maxBytes
    ensures cfg.size > 0 && Decide(w, w, FrameBytes(n), cfg.size) in {Fits, Wraps}
  {
    hide FrameBytes, Offset, Opened;
    OpenedSized(cfg);
    TwoStrides(cfg);
    FrameBytesMonotone(n, cfg.maxBytes);
    AlignedOffset(w, cfg.size);
  }

  // ---------------------------------------------------------------------------------------
  // Room for one message only

  // The offset at which the longest message fits neither before the end of the ring nor,
  // together with the skipped tail, into the ring.
  function BadOffset(cfg: Config): int {
    cfg.size - FrameBytes(cfg.maxBytes) + 8
  }

  lemma OneStride(cfg: Config)
    requires Opened(cfg) && cfg.capacity == 1
    ensures cfg.size < 2 * FrameBytes(cfg.maxBytes) - 8
    ensures FrameBytes(cfg.maxBytes) % 8 == 0 && 16 <= FrameBytes(cfg.maxBytes) <= cfg.size && cfg.size % 8 == 0
  {
    hide FrameBytes, NextPow2;
    var stride := FrameBytes(cfg.maxBytes);
    FrameBytesBounds(cfg.maxBytes);
    GoodRingFacts(1, cfg.maxBytes, cfg.size);
    HalfAligned(cfg.size);
  }

  lemma HalfAligned(size: nat)
    requires size >= 16 && exists k: nat :: size == Pow2(k)
    ensures size % 16 == 0
  {
    var k: nat :| size == Pow2(k);
    SmallPowers(k, size);
    PowMultiple(k - 1);
  }

  lemma BadOffsetBlocks(cfg: Config)
    requires Opened(cfg) && cfg.capacity == 1
    ensures cfg.size > 0 && 0 <= BadOffset(cfg) < cfg.size && BadOffset(cfg) % 8 == 0
    ensures Decide(BadOffset(cfg), BadOffset(cfg), FrameBytes(cfg.maxBytes), cfg.size) == Blocked
  {
    hide FrameBytes, Opened;
    OneStride(cfg);
    UniqueRemainder(BadOffset(cfg), cfg.size, 0, BadOffset(cfg));
  }

  // ---------------------------------------------------------------------------------------
  // Reaching that offset with empty messages

  lemma Move(cfg: Config, s: State, e: Event) returns (s': State)
    requires cfg.size > 0 && Reachable(cfg, s)
    ensures s' == Step(cfg, s, e) && Reachable(cfg, s')
  {
    hide Step, Opened, Init;
    var es :| s == Run(cfg, Init(cfg), es);
    assert (es + [e])[..|es + [e]| - 1] == es;
    s' := Run(cfg, Init(cfg), es + [e]);
  }

  ghost predicate Drained(cfg: Config, s: State, w: nat) {
    && Reachable(cfg, s) && cfg.size > 0
    && s.read == w && s.write == w && s.writer == WIdle && s.reader == RIdle && s.outbox == []
  }

  lemma SendBegins(cfg: Config, s: State, m: Message) returns (s': State)
    requires |m| <= cfg.maxBytes && cfg.size > 0 && Reachable(cfg, s) && s.writer == WIdle && s.outbox == []
    ensures Reachable(cfg, s')
    ensures s' == s.(outbox := [m], accepted := s.accepted + [m], sendAnswer := Sent, writer := WLoop(FlushBudget(cfg), Leave))
  {
    hide Reachable, FlushBudget, FrameBytes, Decide;
    s' := Move(cfg, s, WriterMoves(Send(m)));
    s' := Move(cfg, s', WriterMoves(Flush));
    assert s.outbox + [m] == [m];
  }

  lemma EmptyFits(cfg: Config, w: nat)
    requires Sized(cfg) && w % 8 == 0
    ensures FrameBytes(0) == 8 && Decide(w, w, 8, cfg.size) == Fits
  {
    hide Offset, FrameBytes, Aligned;
    EmptyFrame();
    AlignedPosition(w);
    AlignedOffset(w, cfg.size);
  }

  lemma EmptyFrame()
    ensures FrameBytes(0) == 8
  {
  }

  lemma AlignedPosition(w: nat)
    requires w % 8 == 0
    ensures Aligned(w)
  {
  }

  // An empty message is written: its header, no payload, no padding.
  lemma EmptyWritten(cfg: Config, s: State, w: nat) returns (s': State)
    requires Drained(cfg, s, w) && w % 8 == 0 && Sized(cfg)
    ensures Reachable(cfg, s')
    ensures s'.writer == WCommit(FlushBudget(cfg), Leave, w)
    ensures s'.read == w && s'.write == w && s'.reader == RIdle && s'.outbox == [[]]
  {
    hide Reachable, FrameBytes, Decide, Offset, PutWordAt, PutByteAt;
    EmptyFits(cfg, w);
    s' := SendBegins(cfg, s, []);
    s' := Move(cfg, s', WriterMoves(Flush));
    assert s'.writer == WRead(FlushBudget(cfg), Leave, w);
    s' := Move(cfg, s', WriterMoves(Flush));
    assert s'.writer == WSize(FlushBudget(cfg), Leave, w);
    s' := Move(cfg, s', WriterMoves(Flush));
    s' := Move(cfg, s', WriterMoves(Flush));
    s' := Move(cfg, s', WriterMoves(Flush));
    s' := Move(cfg, s', WriterMoves(Flush));
  }

  lemma EmptySent(cfg: Config, s: State, w: nat) returns (s': State)
    requires Drained(cfg, s, w) && w % 8 == 0 && Sized(cfg)
    ensures Reachable(cfg, s')
    ensures s'.read == w && s'.write == w + 8 && s'.writer == WIdle && s'.reader == RIdle && s'.outbox == []
    ensures WordAt(s'.ring, Offset(w, cfg.size)) == 0 && WordAt(s'.ring, Offset(w, cfg.size) + 4) == FRAME_DATA
  {
    hide Reachable, FlushBudget, FrameBytes, Decide, Offset, PutWordAt, PutByteAt, WordAt;
    EmptyFits(cfg, w);
    s' := EmptyWritten(cfg, s, w);
    HeaderAtCommit(cfg, s', w);
    s' := Move(cfg, s', WriterMoves(Flush));
    s' := Move(cfg, s', WriterMoves(Flush));
    s' := Move(cfg, s', WriterMoves(Flush));
  }

  lemma HeaderAtCommit(cfg: Config, s: State, w: nat)
    requires Reachable(cfg, s) && cfg.size > 0 && s.writer.WCommit? && s.writer.w == w && s.outbox == [[]]
    ensures WordAt(s.ring, Offset(w, cfg.size)) == 0 && WordAt(s.ring, Offset(w, cfg.size) + 4) == FRAME_DATA
  {
    hide Reachable, FrameBytes, Offset, WordAt, RingInv, ReaderInv, FlowInv, OutboxInv;
    var a := ReachableInv(cfg, s);
  }

  lemma EmptyReceived(cfg: Config, s: State, w: nat) returns (s': State)
    requires Reachable(cfg, s) && Sized(cfg) && w % 8 == 0
    requires s.read == w && s.write == w + 8 && s.writer == WIdle && s.reader == RIdle && s.outbox == []
    requires WordAt(s.ring, Offset(w, cfg.size)) == 0 && WordAt(s.ring, Offset(w, cfg.size) + 4) == FRAME_DATA
    ensures Drained(cfg, s', w + 8)
  {
    hide Reachable, FrameBytes, Offset, WordAt;
    EmptyFits(cfg, w);
    AlignedOffset(w, cfg.size);
    s' := Move(cfg, s, ReaderMoves(0));
    s' := Move(cfg, s', ReaderMoves(0));
    s' := Move(cfg, s', ReaderMoves(0));
    s' := Move(cfg, s', ReaderMoves(0));
    s' := Move(cfg, s', ReaderMoves(0));
    assert s'.reader == RCopy(0, w, 0, []);
    s' := Move(cfg, s', ReaderMoves(0));
    s' := Move(cfg, s', ReaderMoves(0));
    s' := Move(cfg, s', ReaderMoves(0));
  }

  // Every multiple of eight is reached with a drained ring.
  lemma {:induction false} EveryOffsetReached(cfg: Config, k: nat) returns (s: State)
    requires Opened(cfg)
    ensures Drained(cfg, s, 8 * k)
  {
    hide Opened;
    OpenedSized(cfg);
    if k == 0 {
      s := Init(cfg);
      assert s == Run(cfg, Init(cfg), []);
    } else {
      s := EveryOffsetReached(cfg, k - 1);
      s := EmptySent(cfg, s, 8 * (k - 1));
      s := EmptyReceived(cfg, s, 8 * (k - 1));
    }
  }

  // ---------------------------------------------------------------------------------------
  // Stuck for ever

  ghost predicate Stuck(cfg: Config, s: State, w: nat) {
    && cfg.size > 0 && s.read == w && s.write == w && s.outbox != [] && FrameBytes(|s.outbox[0]|) <= cfg.size
    && Decide(w, w, FrameBytes(|s.outbox[0]|), cfg.size) == Blocked
    && (s.writer.WIdle? || s.writer.WLoop? || (s.writer.WRead? && s.writer.w == w))
    && (s.reader.RIdle? || s.reader.RStart? || (s.reader.RWrite? && s.reader.r == w))
  }

  lemma StuckStep(cfg: Config, s: State, w: nat, e: Event)
    requires Stuck(cfg, s, w)
    ensures Stuck(cfg, Step(cfg, s, e), w) && Step(cfg, s, e).delivered == s.delivered
  {
    hide FrameBytes, Decide, Offset, PutWordAt, PutByteAt, WordAt, OutboxLimit, FlushBudget;
  }

  lemma {:induction false} StuckForever(cfg: Config, s: State, w: nat, es: seq<Event>)
    requires Stuck(cfg, s, w)
    ensures Stuck(cfg, Run(cfg, s, es), w) && Run(cfg, s, es).delivered == s.delivered
    decreases |es|
  {
    hide Step, Stuck;
    StuckSized(cfg, s, w);
    if es != [] {
      StuckForever(cfg, s, w, es[..|es| - 1]);
      StuckStep(cfg, Run(cfg, s, es[..|es| - 1]), w, es[|es| - 1]);
    }
  }

  lemma StuckSized(cfg: Config, s: State, w: nat)
    requires Stuck(cfg, s, w)
    ensures cfg.size > 0
  {
  }

  // Every drained reachable state with a message to send lets it go.
  ghost predicate NeverStuck(cfg: Config) {
    forall s | Reachable(cfg, s) && s.outbox != [] && s.read == s.write && cfg.size > 0 ::
      Decide(s.write, s.read, FrameBytes(|s.outbox[0]|), cfg.size) != Blocked
  }

  // From s on there is always something to send, and no run delivers it.
  ghost predicate DeliversNoMore(cfg: Config, s: State) {
    cfg.size > 0 && forall es :: Run(cfg, s, es).outbox != [] && Run(cfg, s, es).delivered == s.delivered
  }

  lemma StuckFacts(cfg: Config, s: State)
    requires Stuck(cfg, s, s.write)
    ensures DeliversNoMore(cfg, s)
    ensures s.outbox != [] && s.read == s.write
    ensures Decide(s.write, s.read, FrameBytes(|s.outbox[0]|), cfg.size) == Blocked
  {
    hide Run, Decide, FrameBytes;
    forall es ensures Run(cfg, s, es).outbox != [] && Run(cfg, s, es).delivered == s.delivered {
      StuckForever(cfg, s, s.write, es);
    }
  }

  lemma OneMessageSticks(cfg: Config) returns (s: State)
    requires Opened(cfg) && cfg.capacity == 1
    ensures Reachable(cfg, s) && Stuck(cfg, s, s.write)
  {
    hide Opened, FrameBytes, Decide, Offset, Reachable;
    BadOffsetBlocks(cfg);
    OpenedSized(cfg);
    var w := BadOffset(cfg);
    s := EveryOffsetReached(cfg, w / 8);
    s := SendBegins(cfg, s, seq(cfg.maxBytes, _ => 0));
  }

  // A drained ring accepts whatever is first in the outbox exactly when the channel was opened
  // with room for two messages; with room for one, a run of empty messages leads to a state
  // from which nothing is ever delivered again.
  lemma ProgressNeedsTwo(cfg: Config)
    requires Opened(cfg)
    ensures NeverStuck(cfg) <==> cfg.capacity >= 2
    ensures cfg.capacity == 1 ==> exists s :: Reachable(cfg, s) && DeliversNoMore(cfg, s)
  {
    hide FrameBytes, Decide, Offset, Reachable, Run, Inv, Target, NextPow2;
    OpenedSized(cfg);
    if cfg.capacity >= 2 {
      forall s | Reachable(cfg, s) && s.outbox != [] && s.read == s.write
        ensures Decide(s.write, s.read, FrameBytes(|s.outbox[0]|), cfg.size) != Blocked
      {
        FirstIsLegal(cfg, s);
        DrainedRingAccepts(cfg, s.write, |s.outbox[0]|);
      }
    } else {
      var s := OneMessageSticks(cfg);
      StuckFacts(cfg, s);
    }
  }

  lemma FirstIsLegal(cfg: Config, s: State)
    requires Reachable(cfg, s) && s.outbox != []
    ensures |s.outbox[0]| <= cfg.maxBytes && s.write % 8 == 0
  {
    hide Reachable, RingInv, WriterInv, ReaderInv, FlowInv;
    var a := ReachableInv(cfg, s);
    var fs := RingIsSound(cfg, s);
  }
}
