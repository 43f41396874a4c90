/**
 A channel whose options ask for more than 2^31 bytes: it is opened with a ring of no bytes, takes
 every message and delivers none.
 */
module ZeroRing {
  import opened RingSizing
  import opened RingLayout
  import opened ShmChannel
  import opened ChannelRuns

  // An accepted channel without a ring.
  ghost predicate Ringless(cfg: Config) {
    && Options(cfg.capacity, cfg.maxBytes) && TotalBytes(cfg.capacity, cfg.maxBytes) != 0
    && Target(cfg.capacity, cfg.maxBytes) > HALF && cfg.size == ServerRing(cfg.capacity, cfg.maxBytes)
  }

  lemma RinglessSize(cfg: Config)
    requires Ringless(cfg)
    ensures cfg.size == 0
  {
    hide NextPow2, Target, FrameBytes, ServerRing, TotalBytes;
    RingHoldsTarget(cfg.capacity, cfg.maxBytes);
  }

  // Three messages of almost 2^30 bytes are enough.
  lemma RinglessExists()
    ensures Ringless(Config(3, 0x3FFF_FFF8, 0))
  {
    assert FrameBytes(0x3FFF_FFF8) == 0x4000_0000;
    RingHoldsTarget(3, 0x3FFF_FFF8);
  }

  // ---------------------------------------------------------------------------------------
  // Runs

  // Nothing was written and nothing read; a message is in the outbox only inside a send.
  ghost predicate Barren(s: State) {
    && s.read == 0 && s.write == 0 && s.sendOk == 0 && s.recvOk == 0 && s.delivered == []
    && (s.reader.RIdle? || s.reader.RStart? || (s.reader.RWrite? && s.reader.r == 0))
    && match s.writer
       case WIdle => s.outbox == []
       case WLoop(n, k) => |s.outbox| <= 1 && (s.outbox != [] ==> k == Leave && n > 0)
       case _ => false
  }

  // A step of either side; one that a ring without bytes does not allow changes nothing.
  function StepZero(cfg: Config, s: State, e: Event): State {
    match e
    case WriterMoves(c) =>
      if cfg.size > 0 || s.writer.WIdle? || s.writer.WLoop? then WriterStep(cfg, s, c) else s
    case ReaderMoves(buffer) =>
      if cfg.size > 0 || s.reader.RIdle? || s.reader.RStart? || (s.reader.RWrite? && s.reader.r >= s.write)
      then ReaderStep(cfg, s, buffer) else s
  }

  function RunZero(cfg: Config, s: State, es: seq<Event>): State
    decreases |es|
  {
    if es == [] then s else StepZero(cfg, RunZero(cfg, s, es[..|es| - 1]), es[|es| - 1])
  }

  lemma FramesDoNotFit(cfg: Config, m: Message)
    requires cfg.size == 0
    ensures FrameBytes(|m|) > cfg.size
  {
    FrameBytesBounds(|m|);
  }

  lemma BarrenStep(cfg: Config, s: State, e: Event)
    requires cfg.size == 0 && Barren(s)
    ensures Barren(StepZero(cfg, s, e))
  {
    hide FrameBytes, Decide, PutWordAt, PutByteAt, WordAt, Offset;
    if s.outbox != [] { FramesDoNotFit(cfg, s.outbox[0]); }
  }

  lemma {:induction false} BarrenRun(cfg: Config, s: State, es: seq<Event>)
    requires cfg.size == 0 && Barren(s)
    ensures Barren(RunZero(cfg, s, es))
    decreases |es|
  {
    hide StepZero, Barren;
    if es != [] {
      BarrenRun(cfg, s, es[..|es| - 1]);
      BarrenStep(cfg, RunZero(cfg, s, es[..|es| - 1]), es[|es| - 1]);
    }
  }

  // In every run nothing is delivered, and between sends nothing is waiting either: whatever
  // was accepted is gone. A receive never gets beyond the comparison of the indices.
  lemma EverythingIsLost(cfg: Config, es: seq<Event>)
    requires Ringless(cfg)
    ensures var s := RunZero(cfg, Init(cfg), es);
      && s.delivered == [] && s.write == 0 && s.read == 0
      && (s.writer == WIdle ==> s.outbox == [])
      && (s.reader.RIdle? || s.reader.RStart? || s.reader.RWrite?)
  {
    hide Ringless, StepZero;
    RinglessSize(cfg);
    BarrenRun(cfg, Init(cfg), es);
  }

  // A send of a legal message is accepted, and four steps later the message is gone.
  lemma SendIsAccepted(cfg: Config, s: State, m: Message)
    requires Ringless(cfg) && Barren(s) && s.writer == WIdle && |m| <= cfg.maxBytes
    ensures var move := WriterMoves(Send(m));
      RunZero(cfg, s, [move, move, move, move]) == s.(accepted := s.accepted + [m], sendAnswer := Sent)
  {
    hide Ringless, StepZero, Barren;
    RinglessSize(cfg);
    var e := WriterMoves(Send(m));
    FourSteps(cfg, s, m);
    Longer(cfg, s, [], e);
    Longer(cfg, s, [e], e);
    Longer(cfg, s, [e, e], e);
    Longer(cfg, s, [e, e, e], e);
    assert [] + [e] == [e] && [e] + [e] == [e, e] && [e, e] + [e] == [e, e, e] && [e, e, e] + [e] == [e, e, e, e];
  }

  lemma FourSteps(cfg: Config, s: State, m: Message)
    requires cfg.size == 0 && Barren(s) && s.writer == WIdle && |m| <= cfg.maxBytes
    ensures var e := WriterMoves(Send(m));
      StepZero(cfg, StepZero(cfg, StepZero(cfg, StepZero(cfg, s, e), e), e), e) == s.(accepted := s.accepted + [m], sendAnswer := Sent)
  {
    hide FrameBytes, Decide, PutWordAt, PutByteAt, WordAt, Offset;
    FramesDoNotFit(cfg, m);
    var e := WriterMoves(Send(m));
    var s1 := StepZero(cfg, s, e);
    assert s1 == s.(writer := WLoop(1, Accept(m)));
    var s2 := StepZero(cfg, s1, e);
    assert s2 == s.(writer := WLoop(FlushBudget(cfg), Leave), outbox := [m], accepted := s.accepted + [m], sendAnswer := Sent);
    var s3 := StepZero(cfg, s2, e);
    assert s3 == s2.(outbox := []);
  }

  lemma Longer(cfg: Config, s: State, es: seq<Event>, e: Event)
    ensures RunZero(cfg, s, es + [e]) == StepZero(cfg, RunZero(cfg, s, es), e)
  {
    assert (es + [e])[..|es + [e]| - 1] == es;
  }
}
