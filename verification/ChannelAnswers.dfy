/**
 What TryRecv and TrySend answer when the other side does not step meanwhile.
 */
module ChannelAnswers {
  import opened RingSizing
  import opened RingLayout
  import opened ShmChannel
  import opened ChannelSteps
  import opened ChannelRuns
  import opened ChannelProgress

  // ---------------------------------------------------------------------------------------
  // The reader alone

  // n steps of the reader lead from s to s'; strictly between them it is not idle.
  ghost predicate ReadsAlone(cfg: Config, s: State, buffer: nat, n: nat, s': State)
    decreases n
  {
    && cfg.size > 0 && n > 0
    && var t := ReaderStep(cfg, s, buffer);
       if n == 1 then s' == t else t.reader != RIdle && ReadsAlone(cfg, t, buffer, n - 1, s')
  }

  lemma {:induction false} ReadsOn(cfg: Config, s: State, buffer: nat, n: nat, m: State, k: nat, s': State)
    requires ReadsAlone(cfg, s, buffer, n, m) && m.reader != RIdle && ReadsAlone(cfg, m, buffer, k, s')
    ensures ReadsAlone(cfg, s, buffer, n + k, s')
    decreases n
  {
    hide ReaderStep;
    if n > 1 { ReadsOn(cfg, ReaderStep(cfg, s, buffer), buffer, n - 1, m, k, s'); }
  }

  // One step.
  lemma Reads(cfg: Config, s: State, buffer: nat) returns (s': State)
    requires cfg.size > 0 && Reachable(cfg, s)
    ensures ReadsAlone(cfg, s, buffer, 1, s') && s' == ReaderStep(cfg, s, buffer) && Reachable(cfg, s')
  {
    hide ReaderStep, Reachable;
    s' := Move(cfg, s, ReaderMoves(buffer));
  }

  // Only the reader's own fields may differ.
  ghost predicate ReaderOnly(s: State, s': State) {
    s' == s.(read := s'.read, reader := s'.reader, delivered := s'.delivered, recvOk := s'.recvOk, recvAnswer := s'.recvAnswer)
  }

  lemma {:induction false} CopyAll(cfg: Config, s: State, buffer: nat) returns (n: nat, s': State)
    requires Reachable(cfg, s) && cfg.size > 0 && s.reader.RCopy? && |s.reader.data| <= s.reader.n
    ensures ReadsAlone(cfg, s, buffer, n, s') && Reachable(cfg, s')
    ensures s'.reader.RCommit? && s' == s.(reader := s'.reader) && |s'.reader.data| == s'.reader.n == s.reader.n
    ensures s'.reader.r == s.reader.r
    decreases s.reader.n - |s.reader.data|
  {
    hide Reachable, ReadsAlone, FrameBytes, WordAt;
    s' := Reads(cfg, s, buffer);
    n := 1;
    if |s.reader.data| < s.reader.n {
      var k, e := CopyAll(cfg, s', buffer);
      ReadsOn(cfg, s, buffer, 1, s', k, e);
      n, s' := 1 + k, e;
    }
  }

  // From the first payload byte to the answer.
  lemma Deliver(cfg: Config, s: State, buffer: nat) returns (n: nat, s': State)
    requires Reachable(cfg, s) && cfg.size > 0 && s.reader.RCopy? && s.reader.data == []
    ensures ReadsAlone(cfg, s, buffer, n, s') && Reachable(cfg, s') && ReaderOnly(s, s') && s'.reader == RIdle
    ensures s'.recvAnswer == Received(s.reader.n) && |s'.delivered| == |s.delivered| + 1
    ensures s'.delivered[..|s.delivered|] == s.delivered && |s'.delivered[|s.delivered|]| == s.reader.n
  {
    hide Reachable, ReadsAlone, FrameBytes, WordAt, Offset;
    var k, m := CopyAll(cfg, s, buffer);
    var t := Reads(cfg, m, buffer);
    ReadsOn(cfg, s, buffer, k, m, 1, t);
    s' := Reads(cfg, t, buffer);
    ReadsOn(cfg, s, buffer, k + 1, t, 1, s');
    n := k + 2;
  }

  // What the header at the reader's position says.
  lemma HeaderSays(cfg: Config, s: State, fs: seq<Frame>)
    requires Reachable(cfg, s) && Holds(cfg, s, fs) && (s.reader.RFlag? || s.reader.RSize?)
    ensures fs != [] && s.reader.r == s.read && cfg.size > 0
    ensures var off := Offset(s.read, cfg.size);
      && WordAt(s.ring, off + 4) == (if fs[0].Wrap? then FRAME_WRAP else FRAME_DATA)
      && (fs[0].Data? ==> WordAt(s.ring, off) == |fs[0].payload| <= cfg.maxBytes)
      && (fs[0].Data? ==> FrameBytes(|fs[0].payload|) <= Contiguous(s.read, cfg.size) && s.read + FrameBytes(|fs[0].payload|) <= s.reader.w)
  {
    hide Run, Opened, Frames, End, Payloads, WriterInv, FlowInv, OutboxInv, Offset, Aligned, FrameBytes, WordAt, FrameAt, Holds;
    var a := ReachableInv(cfg, s);
    HoldsFrames(cfg, s, a, fs);
    FirstFrame(cfg, s, a, s.reader.r, s.reader.w);
    HeaderRead(s.ring, s.reader.r, fs[0], cfg.maxBytes);
  }

  // Whatever the writer does meanwhile, a receive keeps the buffer it was called with.
  lemma BufferKept(cfg: Config, s: State, buffer: nat)
    requires cfg.size > 0
    ensures var p, q := s.reader, ReaderStep(cfg, s, buffer).reader;
      && (p.RIdle? ==> q == RStart(buffer))
      && (!p.RIdle? && Buffered(q) ==> Buffered(p) && q.buffer == p.buffer)
  {
    hide FrameBytes, WordAt, Offset;
  }

  predicate Buffered(p: Reader) {
    !p.RIdle? && !p.RCount? && !p.RFault?
  }

  // Nothing longer than the buffer of its receive is ever delivered.
  lemma DeliveryFits(cfg: Config, s: State, buffer: nat)
    requires Reachable(cfg, s) && cfg.size > 0
    ensures var s' := ReaderStep(cfg, s, buffer);
      s'.delivered == s.delivered
      || (Buffered(s.reader) && |s'.delivered| == |s.delivered| + 1 && |s'.delivered[|s.delivered|]| <= s.reader.buffer)
  {
    hide Reachable, FrameBytes, WordAt, Offset, WriterInv, FlowInv, OutboxInv, RingInv;
    var a := ReachableInv(cfg, s);
  }

  // At a data frame the receive ends without delivery exactly when the payload is longer than
  // its buffer.
  lemma BufferDecides(cfg: Config, s: State, buffer: nat, fs: seq<Frame>)
    requires Reachable(cfg, s) && Holds(cfg, s, fs) && s.reader.RSize?
    ensures fs != [] && fs[0].Data? && cfg.size > 0
    ensures var n, s' := |fs[0].payload|, ReaderStep(cfg, s, buffer);
      if n > s.reader.buffer then s' == s.(reader := RIdle, recvAnswer := TooSmall(n))
      else s' == s.(reader := RCopy(s.reader.buffer, s.reader.r, n, []))
  {
    hide Reachable, FrameBytes, WordAt, Offset, Holds, WriterInv, FlowInv, OutboxInv, RingInv, Frames, End;
    HeaderSays(cfg, s, fs);
    var a := ReachableInv(cfg, s);
    HoldsFrames(cfg, s, a, fs);
  }

  // At a data frame: the answer depends on the buffer.
  lemma AnswerAtData(cfg: Config, s: State, fs: seq<Frame>, buffer: nat) returns (n: nat, s': State)
    requires Reachable(cfg, s) && Holds(cfg, s, fs) && s.reader.RFlag? && fs != [] && fs[0].Data?
    ensures ReadsAlone(cfg, s, buffer, n, s') && Reachable(cfg, s') && ReaderOnly(s, s') && s'.reader == RIdle
    ensures var p := fs[0].payload;
      if |p| > s.reader.buffer then s'.recvAnswer == TooSmall(|p|) && s'.delivered == s.delivered
      else s'.recvAnswer == Received(|p|) && |s'.delivered| == |s.delivered| + 1 && s'.delivered[..|s.delivered|] == s.delivered
  {
    hide Reachable, ReadsAlone, FrameBytes, WordAt, Offset, Holds;
    HeaderSays(cfg, s, fs);
    var t := Reads(cfg, s, buffer);
    assert t == s.(reader := RSize(s.reader.buffer, s.reader.r, s.reader.w, s.reader.skips));
    SameHolds(cfg, s, t, fs);
    HeaderSays(cfg, t, fs);
    s' := Reads(cfg, t, buffer);
    ReadsOn(cfg, s, buffer, 1, t, 1, s');
    n := 2;
    if |fs[0].payload| <= s.reader.buffer {
      var k, e := Deliver(cfg, s', buffer);
      ReadsOn(cfg, s, buffer, 2, s', k, e);
      n, s' := 2 + k, e;
    }
  }

  lemma SameHolds(cfg: Config, s: State, s': State, fs: seq<Frame>)
    requires Holds(cfg, s, fs) && s'.ring == s.ring && s'.read == s.read && s'.write == s.write
    ensures Holds(cfg, s', fs)
  {
  }

  // At a wrap marker the reader goes on to the next frame, which is none or a data frame.
  lemma PastMarker(cfg: Config, s: State, fs: seq<Frame>, buffer: nat) returns (s': State)
    requires Reachable(cfg, s) && Holds(cfg, s, fs) && s.reader.RFlag? && fs != [] && fs[0].Wrap?
    ensures ReadsAlone(cfg, s, buffer, 2, s') && Reachable(cfg, s') && ReaderOnly(s, s') && s'.delivered == s.delivered
    ensures s'.reader.RReload? && s'.reader.buffer == s.reader.buffer && s'.reader.r == s'.read
    ensures Holds(cfg, s', fs[1..]) && (|fs| > 1 ==> fs[1].Data?)
  {
    hide Reachable, ReadsAlone, FrameBytes, WordAt, Offset, Holds;
    HeaderSays(cfg, s, fs);
    var t := Reads(cfg, s, buffer);
    s' := Reads(cfg, t, buffer);
    ReadsOn(cfg, s, buffer, 1, t, 1, s');
    RestHolds(cfg, s, s', fs);
  }

  lemma RestHolds(cfg: Config, s: State, s': State, fs: seq<Frame>)
    requires Holds(cfg, s, fs) && fs != [] && fs[0].Wrap? && s'.ring == s.ring && s'.write == s.write
    requires s'.read == s.read + Contiguous(s.read, cfg.size)
    ensures Holds(cfg, s', fs[1..]) && (|fs| > 1 ==> fs[1].Data?)
  {
    hide Offset, FrameBytes, Word;
    NextLap(s.read, cfg.size);
    if |fs| > 1 {
      assert fs[1..][0] == fs[1];
      assert Frames(s.ring, s'.read, fs[1..], cfg.maxBytes);
      assert FrameAt(s.ring, s'.read, fs[1], cfg.maxBytes);
    }
  }

  // The load of write_index: on to the first frame, or the answer that there is none.
  lemma AtIndices(cfg: Config, s: State, fs: seq<Frame>, buffer: nat) returns (s': State)
    requires Reachable(cfg, s) && Holds(cfg, s, fs) && (s.reader.RWrite? || s.reader.RReload?)
    ensures ReadsAlone(cfg, s, buffer, 1, s') && Reachable(cfg, s') && s' == s.(reader := s'.reader, recvAnswer := s'.recvAnswer)
    ensures fs == [] ==> s'.reader == RIdle && s'.recvAnswer == NoMessage
    ensures fs != [] ==> s'.reader.RFlag? && s'.reader.buffer == s.reader.buffer
  {
    hide Reachable, ReadsAlone, Holds, Offset;
    SizePositive(cfg, s, fs);
    s' := Reads(cfg, s, buffer);
    WouldBlockMeansEmpty(cfg, s, buffer, fs);
    var gs := RingIsSound(cfg, s');
  }

  lemma SizePositive(cfg: Config, s: State, fs: seq<Frame>)
    requires Holds(cfg, s, fs)
    ensures cfg.size > 0
  {
  }

  // The payloads start with the first data frame.
  lemma FirstPayload(fs: seq<Frame>)
    requires fs != []
    ensures fs[0].Data? ==> Payloads(fs) != [] && Payloads(fs)[0] == fs[0].payload
    ensures fs[0].Wrap? ==> Payloads(fs) == Payloads(fs[1..])
  {
  }

  // TryRecv with the given buffer, alone: what it answers, up to the message it hands over.
  ghost predicate Answered(s: State, s': State, ps: seq<Message>, buffer: nat) {
    && ReaderOnly(s, s') && s'.reader == RIdle
    && if ps == [] then s'.recvAnswer == NoMessage && s'.delivered == s.delivered
       else if |ps[0]| > buffer then s'.recvAnswer == TooSmall(|ps[0]|) && s'.delivered == s.delivered
       else s'.recvAnswer == Received(|ps[0]|) && |s'.delivered| == |s.delivered| + 1 && s'.delivered[..|s.delivered|] == s.delivered
  }

  lemma FromIndices(cfg: Config, s: State, fs: seq<Frame>, buffer: nat) returns (n: nat, s': State)
    requires Reachable(cfg, s) && Holds(cfg, s, fs) && (s.reader.RWrite? || s.reader.RReload?)
    requires fs == [] || fs[0].Data?
    ensures ReadsAlone(cfg, s, buffer, n, s') && Reachable(cfg, s') && Answered(s, s', Payloads(fs), s.reader.buffer)
  {
    hide Reachable, ReadsAlone, Holds, Payloads;
    s' := AtIndices(cfg, s, fs, buffer);
    n := 1;
    if fs == [] {
      NoPayloads();
    } else {
      FirstPayload(fs);
      SameHolds(cfg, s, s', fs);
      var k, e := AnswerAtData(cfg, s', fs, buffer);
      ReadsOn(cfg, s, buffer, 1, s', k, e);
      n, s' := 1 + k, e;
    }
  }

  lemma NoPayloads()
    ensures Payloads([]) == []
  {
  }

  lemma FromWrite(cfg: Config, s: State, fs: seq<Frame>, buffer: nat) returns (n: nat, s': State)
    requires Reachable(cfg, s) && Holds(cfg, s, fs) && s.reader.RWrite?
    ensures ReadsAlone(cfg, s, buffer, n, s') && Reachable(cfg, s') && Answered(s, s', Payloads(fs), s.reader.buffer)
  {
    hide Reachable, ReadsAlone, Holds, Payloads;
    if fs == [] || fs[0].Data? {
      n, s' := FromIndices(cfg, s, fs, buffer);
    } else {
      var t := AtIndices(cfg, s, fs, buffer);
      SameHolds(cfg, s, t, fs);
      var u := PastMarker(cfg, t, fs, buffer);
      ReadsOn(cfg, s, buffer, 1, t, 2, u);
      FirstPayload(fs);
      var k, e := FromIndices(cfg, u, fs[1..], buffer);
      ReadsOn(cfg, s, buffer, 3, u, k, e);
      n, s' := 3 + k, e;
    }
  }

  // The next message is handed over exactly when there is one and it fits the buffer; otherwise
  // the answer says which of the two failed, and no message moves.
  lemma RecvAnswers(cfg: Config, s: State, fs: seq<Frame>, buffer: nat) returns (n: nat, s': State)
    requires Reachable(cfg, s) && Holds(cfg, s, fs) && s.reader == RIdle
    ensures ReadsAlone(cfg, s, buffer, n, s') && ReaderOnly(s, s') && s'.reader == RIdle
    ensures Payloads(fs) == [] ==> s'.recvAnswer == NoMessage && s'.delivered == s.delivered
    ensures Payloads(fs) != [] && |Payloads(fs)[0]| > buffer ==>
      s'.recvAnswer == TooSmall(|Payloads(fs)[0]|) && s'.delivered == s.delivered
    ensures Payloads(fs) != [] && |Payloads(fs)[0]| <= buffer ==>
      s'.recvAnswer == Received(|Payloads(fs)[0]|) && s'.delivered == s.delivered + [Payloads(fs)[0]]
  {
    hide Reachable, ReadsAlone, Holds, Payloads;
    SizePositive(cfg, s, fs);
    var t := Reads(cfg, s, buffer);
    var u := Reads(cfg, t, buffer);
    ReadsOn(cfg, s, buffer, 1, t, 1, u);
    SameHolds(cfg, s, u, fs);
    var k, e := FromWrite(cfg, u, fs, buffer);
    ReadsOn(cfg, s, buffer, 2, u, k, e);
    n, s' := 2 + k, e;
    if Payloads(fs) != [] && |Payloads(fs)[0]| <= buffer { NextIsFirst(cfg, s, s', fs); }
  }

  // What was delivered next is the first message of the ring.
  lemma NextIsFirst(cfg: Config, s: State, s': State, fs: seq<Frame>)
    requires Reachable(cfg, s) && Holds(cfg, s, fs) && Reachable(cfg, s') && s'.accepted == s.accepted && Payloads(fs) != []
    requires |s'.delivered| == |s.delivered| + 1 && s'.delivered[..|s.delivered|] == s.delivered
    ensures s'.delivered == s.delivered + [Payloads(fs)[0]]
  {
    hide Reachable, Holds, Payloads;
    Conservation(cfg, s, fs);
    var gs := RingIsSound(cfg, s');
    Conservation(cfg, s', gs);
    var n := |s.delivered|;
    assert s.accepted[n] == Payloads(fs)[0];
    assert s'.accepted[n] == s'.delivered[n];
  }

  // ---------------------------------------------------------------------------------------
  // The writer alone

  ghost predicate WritesAlone(cfg: Config, s: State, c: Call, n: nat, s': State)
    decreases n
  {
    && cfg.size > 0 && n > 0
    && var t := WriterStep(cfg, s, c);
       if n == 1 then s' == t else t.writer != WIdle && WritesAlone(cfg, t, c, n - 1, s')
  }

  lemma {:induction false} WritesOn(cfg: Config, s: State, c: Call, n: nat, m: State, k: nat, s': State)
    requires WritesAlone(cfg, s, c, n, m) && m.writer != WIdle && WritesAlone(cfg, m, c, k, s')
    ensures WritesAlone(cfg, s, c, n + k, s')
    decreases n
  {
    hide WriterStep;
    if n > 1 { WritesOn(cfg, WriterStep(cfg, s, c), c, n - 1, m, k, s'); }
  }

  lemma Writes(cfg: Config, s: State, c: Call) returns (s': State)
    requires cfg.size > 0 && Reachable(cfg, s)
    ensures WritesAlone(cfg, s, c, 1, s') && s' == WriterStep(cfg, s, c) && Reachable(cfg, s')
  {
    hide WriterStep, Reachable;
    s' := Move(cfg, s, WriterMoves(c));
  }

  // Everything but the ring's bytes and the writer's fields is the same.
  ghost predicate WriterOnly(s: State, s': State) {
    s' == s.(ring := s'.ring, write := s'.write, writer := s'.writer, sendOk := s'.sendOk, outbox := s'.outbox,
             accepted := s'.accepted, sendAnswer := s'.sendAnswer)
  }

  // Where a frame of f bytes goes when the indices are w and r: at w if it fits before the end
  // of the ring, else after the skipped tail; at neither when that is more than is free.
  datatype Place = Nowhere | At(start: nat)

  function PlaceFor(w: nat, r: nat, f: nat, size: nat): Place
    requires size > 0
  {
    var c := Contiguous(w, size);
    if f <= c then (if w + f <= r + size then At(w) else Nowhere)
    else if w + c + f <= r + size then At(w + c) else Nowhere
  }

  // The writer's decision is that place.
  lemma DecideIsPlace(w: nat, r: nat, f: nat, size: nat)
    requires size > 0 && size % 8 == 0 && w % 8 == 0 && r <= w <= r + size && f >= HEADER_BYTES
    ensures Decide(w, r, f, size) == Fits <==> PlaceFor(w, r, f, size) == At(w)
    ensures Decide(w, r, f, size) == Wraps <==> PlaceFor(w, r, f, size) == At(w + Contiguous(w, size))
    ensures Decide(w, r, f, size) == Blocked <==> PlaceFor(w, r, f, size) == Nowhere
  {
    hide Offset;
    AlignedOffset(w, size);
  }

  lemma {:induction false} CopyOut(cfg: Config, s: State, c: Call) returns (n: nat, s': State)
    requires Reachable(cfg, s) && cfg.size > 0 && s.writer.WCopy? && s.outbox != [] && s.writer.j <= |s.outbox[0]|
    ensures WritesAlone(cfg, s, c, n, s') && Reachable(cfg, s')
    ensures s' == s.(ring := s'.ring, writer := WPad(s.writer.budget, s.writer.k, s.writer.w, |s.outbox[0]|))
    decreases |s.outbox[0]| - s.writer.j
  {
    hide Reachable, WritesAlone, FrameBytes, PutByteAt, Offset;
    s' := Writes(cfg, s, c);
    n := 1;
    if s.writer.j < |s.outbox[0]| {
      var k, e := CopyOut(cfg, s', c);
      WritesOn(cfg, s, c, 1, s', k, e);
      n, s' := 1 + k, e;
    }
  }

  lemma {:induction false} PadOut(cfg: Config, s: State, c: Call) returns (n: nat, s': State)
    requires Reachable(cfg, s) && cfg.size > 0 && s.writer.WPad? && s.outbox != []
    ensures WritesAlone(cfg, s, c, n, s') && Reachable(cfg, s')
    ensures s' == s.(ring := s'.ring, writer := WCommit(s.writer.budget, s.writer.k, s.writer.w))
    decreases FrameBytes(|s.outbox[0]|) - s.writer.j
  {
    hide Reachable, WritesAlone, FrameBytes, PutByteAt, Offset;
    s' := Writes(cfg, s, c);
    n := 1;
    if HEADER_BYTES + s.writer.j < FrameBytes(|s.outbox[0]|) {
      var k, e := PadOut(cfg, s', c);
      WritesOn(cfg, s, c, 1, s', k, e);
      n, s' := 1 + k, e;
    }
  }

  // From the frame's size field to the loop head: the frame is published.
  lemma PutFrame(cfg: Config, s: State, c: Call) returns (n: nat, s': State)
    requires Reachable(cfg, s) && cfg.size > 0 && s.writer.WSize? && s.outbox != [] && s.writer.budget > 0
    ensures WritesAlone(cfg, s, c, n, s') && Reachable(cfg, s')
    ensures s' == s.(ring := s'.ring, write := s.writer.w + FrameBytes(|s.outbox[0]|), sendOk := s.sendOk + 1,
                     outbox := s.outbox[1..], writer := WLoop(s.writer.budget - 1, s.writer.k))
  {
    hide Reachable, WritesAlone, FrameBytes, PutWordAt, Offset;
    var t := Writes(cfg, s, c);
    var u := Writes(cfg, t, c);
    WritesOn(cfg, s, c, 1, t, 1, u);
    var k, v := CopyOut(cfg, u, c);
    WritesOn(cfg, s, c, 2, u, k, v);
    var l, x := PadOut(cfg, v, c);
    WritesOn(cfg, s, c, 2 + k, v, l, x);
    var y := Writes(cfg, x, c);
    WritesOn(cfg, s, c, 2 + k + l, x, 1, y);
    s' := Writes(cfg, y, c);
    WritesOn(cfg, s, c, 3 + k + l, y, 1, s');
    n := 4 + k + l;
  }

  // What a flush of at most n messages leaves: the next write index and the outbox.
  datatype Flushed = Flushed(write: nat, outbox: seq<Message>)

  function Flush(w: nat, r: nat, q: seq<Message>, n: nat, size: nat): Flushed
    requires size > 0
    decreases n
  {
    if n == 0 || q == [] then Flushed(w, q) else
      match PlaceFor(w, r, FrameBytes(|q[0]|), size)
      case Nowhere => Flushed(w, q)
      case At(x) => Flush(x + FrameBytes(|q[0]|), r, q[1..], n - 1, size)
  }

  lemma AtLoopHead(cfg: Config, s: State)
    requires Reachable(cfg, s) && s.writer.WLoop? && s.outbox != []
    ensures cfg.size > 0 && FrameBytes(|s.outbox[0]|) <= cfg.size
    ensures var f := FrameBytes(|s.outbox[0]|);
      && (Decide(s.write, s.read, f, cfg.size) == Fits <==> PlaceFor(s.write, s.read, f, cfg.size) == At(s.write))
      && (Decide(s.write, s.read, f, cfg.size) == Wraps <==> PlaceFor(s.write, s.read, f, cfg.size) == At(s.write + Contiguous(s.write, cfg.size)))
      && (Decide(s.write, s.read, f, cfg.size) == Blocked <==> PlaceFor(s.write, s.read, f, cfg.size) == Nowhere)
  {
    hide Reachable, Decide, PlaceFor, Offset, FrameBytes, Holds;
    var fs := RingIsSound(cfg, s);
    SizePositive(cfg, s, fs);
    SizeAligned(cfg, s);
    FrameBytesBounds(|s.outbox[0]|);
    DecideIsPlace(s.write, s.read, FrameBytes(|s.outbox[0]|), cfg.size);
  }

  lemma SizeAligned(cfg: Config, s: State)
    requires Reachable(cfg, s)
    ensures cfg.size % 8 == 0
  {
    hide Run, Opened, FrameBytes;
    OpenedSized(cfg);
  }

  // No place: the flush ends.
  lemma FlushBlocked(cfg: Config, s: State, c: Call) returns (s': State)
    requires Reachable(cfg, s) && s.writer.WLoop? && s.writer.budget > 0 && s.outbox != [] && cfg.size > 0
    requires PlaceFor(s.write, s.read, FrameBytes(|s.outbox[0]|), cfg.size) == Nowhere
    ensures WritesAlone(cfg, s, c, 2, s') && Reachable(cfg, s') && s' == AfterFlush(cfg, s, s.writer.k)
  {
    hide Reachable, WritesAlone, FrameBytes, PlaceFor, Decide, Offset;
    AtLoopHead(cfg, s);
    var t := Writes(cfg, s, c);
    assert t == s.(writer := WRead(s.writer.budget, s.writer.k, s.write));
    s' := Writes(cfg, t, c);
    WritesOn(cfg, s, c, 1, t, 1, s');
  }

  // A place: the writer gets to the frame's size field there.
  lemma FlushPlaced(cfg: Config, s: State, c: Call) returns (n: nat, s': State)
    requires Reachable(cfg, s) && s.writer.WLoop? && s.writer.budget > 0 && s.outbox != [] && cfg.size > 0
    requires PlaceFor(s.write, s.read, FrameBytes(|s.outbox[0]|), cfg.size).At?
    ensures var x := PlaceFor(s.write, s.read, FrameBytes(|s.outbox[0]|), cfg.size).start;
      WritesAlone(cfg, s, c, n, s') && Reachable(cfg, s')
      && s' == s.(ring := s'.ring, write := x, writer := WSize(s.writer.budget, s.writer.k, x))
  {
    hide Reachable, WritesAlone, FrameBytes, Decide, Offset, PutWordAt;
    AtLoopHead(cfg, s);
    var t := Writes(cfg, s, c);
    assert t == s.(writer := WRead(s.writer.budget, s.writer.k, s.write));
    var u := Writes(cfg, t, c);
    WritesOn(cfg, s, c, 1, t, 1, u);
    if FrameBytes(|s.outbox[0]|) <= Contiguous(s.write, cfg.size) {
      n, s' := 2, u;
    } else {
      var k, e := SkipTail(cfg, u, c);
      WritesOn(cfg, s, c, 2, u, k, e);
      n, s' := 2 + k, e;
    }
  }

  lemma SkipTail(cfg: Config, s: State, c: Call) returns (n: nat, s': State)
    requires Reachable(cfg, s) && s.writer.WMarkSize? && cfg.size > 0
    ensures var x := s.writer.w + Contiguous(s.writer.w, cfg.size);
      WritesAlone(cfg, s, c, n, s') && Reachable(cfg, s')
      && s' == s.(ring := s'.ring, write := x, writer := WSize(s.writer.budget, s.writer.k, x))
  {
    hide Reachable, WritesAlone, FrameBytes, Decide, Offset, PutWordAt, Used;
    var t := Writes(cfg, s, c);
    var u := Writes(cfg, t, c);
    WritesOn(cfg, s, c, 1, t, 1, u);
    var v := Writes(cfg, u, c);
    WritesOn(cfg, s, c, 2, u, 1, v);
    s' := Writes(cfg, v, c);
    WritesOn(cfg, s, c, 3, v, 1, s');
    var fs := RingIsSound(cfg, s');
    n := 4;
  }

  // A flush on its own: it writes what Flush says and ends.
  lemma {:induction false} FlushAlone(cfg: Config, s: State, c: Call) returns (n: nat, m: State, s': State)
    requires Reachable(cfg, s) && s.writer.WLoop? && cfg.size > 0
    ensures WritesAlone(cfg, s, c, n, s') && Reachable(cfg, s')
    ensures s' == AfterFlush(cfg, m, s.writer.k) && m == s.(ring := m.ring, sendOk := m.sendOk, write := m.write, outbox := m.outbox, writer := m.writer)
    ensures Flushed(m.write, m.outbox) == Flush(s.write, s.read, s.outbox, s.writer.budget, cfg.size)
    decreases s.writer.budget
  {
    hide Reachable, WritesAlone, FrameBytes, Decide, Offset, PlaceFor, AfterFlush;
    var budget, k := s.writer.budget, s.writer.k;
    if budget == 0 || s.outbox == [] {
      s' := Writes(cfg, s, c);
      n, m := 1, s;
    } else if PlaceFor(s.write, s.read, FrameBytes(|s.outbox[0]|), cfg.size) == Nowhere {
      s' := FlushBlocked(cfg, s, c);
      n, m := 2, s;
    } else {
      var i, t := FlushPlaced(cfg, s, c);
      var j, u := PutFrame(cfg, t, c);
      WritesOn(cfg, s, c, i, t, j, u);
      var l;
      l, m, s' := FlushAlone(cfg, u, c);
      WritesOn(cfg, s, c, i + j, u, l, s');
      n := i + j + l;
    }
  }

  function Max(a: nat, b: nat): nat {
    if a < b then b else a
  }

  function Min(a: nat, b: nat): nat {
    if a < b then a else b
  }

  lemma Budgets(cfg: Config)
    ensures OutboxLimit(cfg) == Max(4, 2 * cfg.capacity) && FlushBudget(cfg) == Min(8, Max(4, 2 * cfg.capacity))
  {
  }

  // TrySend alone: it first flushes one message. Then the message is accepted exactly when the
  // outbox holds fewer than max(4, 2 * capacity), and up to min(8, that) messages are flushed.
  lemma SendAnswers(cfg: Config, s: State, msg: Message) returns (n: nat, s': State)
    requires Reachable(cfg, s) && cfg.size > 0 && s.writer == WIdle
    ensures WritesAlone(cfg, s, Send(msg), n, s') && WriterOnly(s, s') && s'.writer == WIdle
    ensures |msg| > cfg.maxBytes ==> s' == s.(sendAnswer := TooLong)
    ensures |msg| <= cfg.maxBytes ==>
      var limit, one := Max(4, 2 * cfg.capacity), Flush(s.write, s.read, s.outbox, 1, cfg.size);
      && (|one.outbox| >= limit ==>
            s'.sendAnswer == QueueFull && s'.accepted == s.accepted && Flushed(s'.write, s'.outbox) == one)
      && (|one.outbox| < limit ==>
            && s'.sendAnswer == Sent && s'.accepted == s.accepted + [msg]
            && Flushed(s'.write, s'.outbox) == Flush(one.write, s.read, one.outbox + [msg], Min(8, limit), cfg.size))
  {
    hide Reachable, WritesAlone, FrameBytes, Flush, OutboxLimit, FlushBudget, Max, Min;
    var c := Send(msg);
    Budgets(cfg);
    s' := Writes(cfg, s, c);
    n := 1;
    if |msg| <= cfg.maxBytes {
      assert s' == s.(writer := WLoop(1, Accept(msg)));
      var i, m, t := FlushAlone(cfg, s', c);
      WritesOn(cfg, s, c, 1, s', i, t);
      n := 1 + i;
      if |m.outbox| < OutboxLimit(cfg) {
        var j, m', u := FlushAlone(cfg, t, c);
        WritesOn(cfg, s, c, n, t, j, u);
        n, s' := n + j, u;
      } else {
        s' := t;
      }
    }
  }

  // The flush that a receive starts with, alone: one message at most, and nothing is accepted.
  lemma FlushAnswers(cfg: Config, s: State) returns (n: nat, s': State)
    requires Reachable(cfg, s) && cfg.size > 0 && s.writer == WIdle
    ensures WritesAlone(cfg, s, Call.Flush, n, s') && WriterOnly(s, s') && s'.writer == WIdle
    ensures s'.accepted == s.accepted && s'.sendAnswer == s.sendAnswer
    ensures Flushed(s'.write, s'.outbox) == Flush(s.write, s.read, s.outbox, 1, cfg.size)
  {
    hide Reachable, WritesAlone, FrameBytes, Flush, OutboxLimit, FlushBudget;
    var c := Call.Flush;
    var t := Writes(cfg, s, c);
    assert t == s.(writer := WLoop(1, Leave));
    var i, m;
    i, m, s' := FlushAlone(cfg, t, c);
    WritesOn(cfg, s, c, 1, t, i, s');
    n := 1 + i;
  }
}
