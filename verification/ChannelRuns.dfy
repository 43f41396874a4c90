/**
 Whole runs of the shared-memory channel.
 */
module ChannelRuns {
  import opened Modular
  import opened RingSizing
  import opened RingLayout
  import opened ShmChannel
  import opened ChannelSteps

  // One step of either side; c and buffer matter only to an idle endpoint.
  datatype Event = WriterMoves(c: Call) | ReaderMoves(buffer: nat)

  ghost predicate Opened(cfg: Config) {
    GoodRing(cfg.capacity, cfg.maxBytes, cfg.size) && cfg.maxBytes < WORD
  }

  function Init(cfg: Config): State {
    State(seq(cfg.size, _ => 0), 0, 0, 0, 0, WIdle, RIdle, [], [], [], NotAsked, NotSent)
  }

  function Step(cfg: Config, s: State, e: Event): State
    requires cfg.size > 0
  {
    match e
    case WriterMoves(c) => WriterStep(cfg, s, c)
    case ReaderMoves(buffer) => ReaderStep(cfg, s, buffer)
  }

  function Track(s: State, a: Aux, e: Event): Aux {
    if e.WriterMoves? then TrackWriter(s, a) else TrackReader(s, a)
  }

  function Run(cfg: Config, s: State, es: seq<Event>): State
    requires cfg.size > 0
    decreases |es|
  {
    if es == [] then s else Step(cfg, Run(cfg, s, es[..|es| - 1]), es[|es| - 1])
  }

  ghost function Tracked(cfg: Config, s: State, a: Aux, es: seq<Event>): Aux
    requires cfg.size > 0
    decreases |es|
  {
    if es == [] then a
    else Track(Run(cfg, s, es[..|es| - 1]), Tracked(cfg, s, a, es[..|es| - 1]), es[|es| - 1])
  }

  ghost predicate Reachable(cfg: Config, s: State) {
    Opened(cfg) && cfg.size > 0 && exists es :: s == Run(cfg, Init(cfg), es)
  }

  lemma OpenedSized(cfg: Config)
    requires Opened(cfg)
    ensures Sized(cfg)
  {
    hide FrameBytes, Target, NextPow2;
    GoodRingFacts(cfg.capacity, cfg.maxBytes, cfg.size);
  }

  lemma InitInv(cfg: Config)
    requires Sized(cfg)
    ensures Inv(cfg, Init(cfg), Aux([], 0))
  {
    hide FrameBytes;
  }

  lemma StepInv(cfg: Config, s: State, a: Aux, e: Event)
    requires cfg.size > 0 && Inv(cfg, s, a)
    ensures Inv(cfg, Step(cfg, s, e), Track(s, a, e))
  {
    hide Inv, WriterStep, ReaderStep, TrackWriter, TrackReader;
    match e
    case WriterMoves(c) => WriterInvStep(cfg, s, a, c);
    case ReaderMoves(buffer) => ReaderInvStep(cfg, s, a, buffer);
  }

  lemma {:induction false} RunInv(cfg: Config, s: State, a: Aux, es: seq<Event>)
    requires cfg.size > 0 && Inv(cfg, s, a)
    ensures Inv(cfg, Run(cfg, s, es), Tracked(cfg, s, a, es))
    decreases |es|
  {
    hide Inv, Step, Track;
    if es != [] {
      RunInv(cfg, s, a, es[..|es| - 1]);
      StepInv(cfg, Run(cfg, s, es[..|es| - 1]), Tracked(cfg, s, a, es[..|es| - 1]), es[|es| - 1]);
    }
  }

  lemma ReachableInv(cfg: Config, s: State) returns (a: Aux)
    requires Reachable(cfg, s)
    ensures Inv(cfg, s, a)
  {
    hide Inv, Opened;
    var es :| s == Run(cfg, Init(cfg), es);
    OpenedSized(cfg);
    InitInv(cfg);
    RunInv(cfg, Init(cfg), Aux([], 0), es);
    a := Tracked(cfg, Init(cfg), Aux([], 0), es);
  }

  // ---------------------------------------------------------------------------------------
  // What the ring holds

  // fs are the frames between the two indices.
  ghost predicate Holds(cfg: Config, s: State, fs: seq<Frame>) {
    && |s.ring| == cfg.size > 0
    && Frames(s.ring, s.read, fs, cfg.maxBytes)
    && End(s.read, fs, cfg.size) == s.write
  }

  lemma SameFrame(ring: seq<Byte>, pos: nat, f: Frame, g: Frame, maxBytes: nat)
    requires FrameAt(ring, pos, f, maxBytes) && FrameAt(ring, pos, g, maxBytes)
    ensures f == g
  {
    hide Word, Offset, FrameBytes;
  }

  // The bytes between the indices parse in one way only.
  lemma {:induction false} UniqueParse(ring: seq<Byte>, pos: nat, fs: seq<Frame>, gs: seq<Frame>, maxBytes: nat)
    requires |ring| > 0 && Frames(ring, pos, fs, maxBytes) && Frames(ring, pos, gs, maxBytes)
    requires End(pos, fs, |ring|) == End(pos, gs, |ring|)
    ensures fs == gs
    decreases |fs|
  {
    hide FrameAt, Length;
    if fs == [] && gs != [] {
      Longer(ring, pos, gs, maxBytes);
    } else if fs != [] && gs == [] {
      Longer(ring, pos, fs, maxBytes);
    } else if fs != [] {
      SameFrame(ring, pos, fs[0], gs[0], maxBytes);
      UniqueParse(ring, pos + Length(fs[0], pos, |ring|), fs[1..], gs[1..], maxBytes);
    }
  }

  lemma Longer(ring: seq<Byte>, pos: nat, fs: seq<Frame>, maxBytes: nat)
    requires |ring| > 0 && fs != [] && Frames(ring, pos, fs, maxBytes)
    ensures End(pos, fs, |ring|) > pos
  {
    hide Length;
    EndGrows(pos + Length(fs[0], pos, |ring|), fs[1..], |ring|);
  }

  lemma HoldsFrames(cfg: Config, s: State, a: Aux, fs: seq<Frame>)
    requires Inv(cfg, s, a) && Holds(cfg, s, fs)
    ensures fs == a.frames
  {
    hide OutboxInv, WriterInv, ReaderInv, FlowInv, Sized, Aligned, Frames, End;
    UniqueParse(s.ring, s.read, fs, a.frames, cfg.maxBytes);
  }

  // In every reachable state the bytes between the indices are whole frames and wrap markers,
  // both indices are multiples of eight at most a ring apart, no side is at one of the
  // branches for corrupted or short data, and a receive has skipped at most one marker.
  lemma RingIsSound(cfg: Config, s: State) returns (fs: seq<Frame>)
    requires Reachable(cfg, s)
    ensures Holds(cfg, s, fs)
    ensures s.read % 8 == 0 && s.write % 8 == 0 && s.read <= s.write <= s.read + cfg.size
    ensures s.writer != WFault && s.reader != RFault
    ensures s.writer.WLoop? && s.outbox != [] ==> FrameBytes(|s.outbox[0]|) <= cfg.size
    ensures s.reader.RFlag? || s.reader.RSkip? || s.reader.RReload? || s.reader.RSize? ==> s.reader.skips <= 1
  {
    hide Frames, End, Run, FrameBytes, Offset, Decide, Payloads, Copied, HeaderSet, SizeSet, Placed, Tail, Covers, Reading;
    var a := ReachableInv(cfg, s);
    fs := a.frames;
    if s.outbox != [] { FrameFits(cfg, s.outbox[0]); }
  }

  lemma WriterSparesLiveBytes(cfg: Config, s: State, c: Call)
    requires Reachable(cfg, s)
    ensures Agree(s.ring, WriterStep(cfg, s, c).ring, s.read, s.write)
  {
    hide Inv, Agree, Run, Opened, WriterStep;
    var a := ReachableInv(cfg, s);
    WriterInvStep(cfg, s, a, c);
  }

  // Nothing is lost, duplicated or reordered, and the counters tell what the ring holds.
  lemma Conservation(cfg: Config, s: State, fs: seq<Frame>)
    requires Reachable(cfg, s) && Holds(cfg, s, fs)
    ensures s.accepted == s.delivered + Pending(s, fs)
    ensures |s.outbox| <= OutboxLimit(cfg)
    ensures s.sendOk - s.recvOk == |Payloads(fs)| + (if s.reader.RCount? then 1 else 0) - (if s.writer.WCount? then 1 else 0)
  {
    hide Frames, End, Run, Opened, Payloads, WriterInv, ReaderInv, RingInv, Sized;
    var a := ReachableInv(cfg, s);
    HoldsFrames(cfg, s, a, fs);
  }

  ghost function StepChange(cfg: Config, s: State, e: Event): Change {
    if e.WriterMoves? then WriterChange(cfg, s) else ReaderChange(s)
  }

  // Every step refines a step of a FIFO queue: it leaves the queue alone, appends the message
  // that TrySend then accepts, or removes the head, which TryRecv then returns.
  lemma RefinesFifo(cfg: Config, s: State, e: Event, fs: seq<Frame>, fs': seq<Frame>)
    requires Reachable(cfg, s) && Holds(cfg, s, fs) && Holds(cfg, Step(cfg, s, e), fs')
    ensures var s' := Step(cfg, s, e); var ch := StepChange(cfg, s, e);
      Changes(Pending(s, fs), Pending(s', fs'), ch) && Recorded(s, s', ch)
  {
    hide Holds, Inv, Run, Opened, WriterStep, ReaderStep, WriterChange, ReaderChange, Changes, Payloads, Recorded, TrackWriter, TrackReader;
    var a := ReachableInv(cfg, s);
    StepInv(cfg, s, a, e);
    HoldsFrames(cfg, s, a, fs);
    HoldsFrames(cfg, Step(cfg, s, e), Track(s, a, e), fs');
    match e
    case WriterMoves(c) => WriterInvStep(cfg, s, a, c);
    case ReaderMoves(buffer) => ReaderInvStep(cfg, s, a, buffer);
  }

  // A receive that gives up before looking at a frame does so on an empty ring.
  lemma WouldBlockMeansEmpty(cfg: Config, s: State, buffer: nat, fs: seq<Frame>)
    requires Reachable(cfg, s) && Holds(cfg, s, fs)
    requires s.reader.RWrite? || s.reader.RReload?
    ensures ReaderStep(cfg, s, buffer).reader == RIdle <==> fs == []
  {
    hide Run, Opened, Frames, Covers, SkipsOk, Payloads, Aligned, Sized, WriterInv, FlowInv, OutboxInv, Offset;
    var a := ReachableInv(cfg, s);
    HoldsFrames(cfg, s, a, fs);
    if fs != [] { Longer(s.ring, s.read, fs, cfg.maxBytes); }
  }
}
