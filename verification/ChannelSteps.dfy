/**
 Every step of the shared-memory channel keeps its invariant.
 */
module ChannelSteps {
  import opened Modular
  import opened RingSizing
  import opened RingLayout
  import opened ShmChannel

  // ---------------------------------------------------------------------------------------
  // Positions

  lemma AlignedOffset(pos: nat, size: nat)
    requires size > 0 && Aligned(size) && Aligned(pos)
    ensures Aligned(Offset(pos, size)) && Aligned(Contiguous(pos, size))
    ensures Contiguous(pos, size) >= HEADER_BYTES
  {
    hide Offset;
    var q := Laps(pos, size);
    AlignedRest(pos, q, size, Offset(pos, size));
    AlignedTail(size, Offset(pos, size));
  }

  lemma Laps(pos: nat, size: nat) returns (q: nat)
    requires size > 0
    ensures pos == q * size + Offset(pos, size)
  {
    q := pos / size;
  }

  lemma AlignedRest(pos: nat, q: nat, size: nat, off: nat)
    requires Aligned(size) && Aligned(pos) && pos == q * size + off
    ensures Aligned(off)
  {
    var m := size / 8;
    ProductOfEighths(q, m);
    assert size == 8 * m;
  }

  lemma ProductOfEighths(q: nat, m: nat)
    ensures q * (8 * m) == 8 * (q * m)
  {
  }

  lemma AlignedTail(size: nat, off: nat)
    requires Aligned(size) && Aligned(off) && off < size
    ensures Aligned(size - off) && size - off >= HEADER_BYTES
  {
  }

  lemma NextLap(pos: nat, size: nat)
    requires size > 0
    ensures Offset(pos + Contiguous(pos, size), size) == 0
  {
    var q := pos / size;
    assert pos == q * size + pos % size;
    assert (q + 1) * size == q * size + size;
    UniqueRemainder(pos + Contiguous(pos, size), size, q + 1, 0);
  }

  // The rings are the same outside the offsets lo .. hi - 1.
  ghost predicate SameElse(ring: seq<Byte>, ring': seq<Byte>, lo: nat, hi: nat) {
    |ring| == |ring'| && forall k | 0 <= k < |ring| && !(lo <= k < hi) :: ring'[k] == ring[k]
  }

  lemma LiveByte(j: nat, w: nat, len: nat, size: nat)
    requires size > 0 && len <= Contiguous(w, size) && j < w && w + len <= j + size
    ensures !(Offset(w, size) <= Offset(j, size) < Offset(w, size) + len)
  {
    if Offset(w, size) <= Offset(j, size) < Offset(w, size) + len {
      var i := Offset(j, size) - Offset(w, size);
      OffsetWithin(w, i, size);
      DistinctRemainders(j, w + i, size);
    }
  }

  // Bytes written past write, within the free part of the ring, leave the live part alone.
  lemma LiveBytesKept(ring: seq<Byte>, ring': seq<Byte>, read: nat, w: nat, len: nat)
    requires |ring| > 0 && len <= Contiguous(w, |ring|) && read <= w && w + len <= read + |ring|
    requires SameElse(ring, ring', Offset(w, |ring|), Offset(w, |ring|) + len)
    ensures Agree(ring, ring', read, w)
  {
    forall j | read <= j < w ensures ring'[Offset(j, |ring|)] == ring[Offset(j, |ring|)] {
      LiveByte(j, w, len, |ring|);
    }
  }

  lemma RingWritten(cfg: Config, s: State, s': State, a: Aux, len: nat)
    requires RingInv(cfg, s, a) && s'.read == s.read && s'.write == s.write
    requires len <= Contiguous(s.write, cfg.size) && s.write + len <= s.read + cfg.size
    requires SameElse(s.ring, s'.ring, Offset(s.write, cfg.size), Offset(s.write, cfg.size) + len)
    ensures RingInv(cfg, s', a) && Agree(s.ring, s'.ring, s.read, s.write)
  {
    LiveBytesKept(s.ring, s'.ring, s.read, s.write, len);
    FramesKept(s.ring, s'.ring, s.read, a.frames, cfg.maxBytes);
  }

  lemma RingExtended(cfg: Config, s: State, a: Aux, f: Frame)
    requires RingInv(cfg, s, a) && Aligned(cfg.size) && FrameAt(s.ring, s.write, f, cfg.maxBytes)
    requires s.write + Length(f, s.write, cfg.size) <= s.read + cfg.size
    ensures RingInv(cfg, s.(write := s.write + Length(f, s.write, cfg.size)), a.(frames := a.frames + [f]))
  {
    hide Frames, End, FrameAt, Length, Aligned;
    FramesAppend(s.ring, s.read, a.frames, f, cfg.maxBytes);
    AlignedLength(cfg, s.write, f);
  }

  lemma AlignedLength(cfg: Config, pos: nat, f: Frame)
    requires cfg.size > 0 && Aligned(cfg.size) && Aligned(pos)
    ensures Aligned(Length(f, pos, cfg.size)) && Aligned(pos + Length(f, pos, cfg.size))
  {
    hide FrameBytes, Offset, Aligned;
    if f.Wrap? { AlignedOffset(pos, cfg.size); } else { AlignedFrame(|f.payload|); }
    AlignedSum(pos, Length(f, pos, cfg.size));
  }

  lemma AlignedFrame(n: nat)
    ensures Aligned(FrameBytes(n))
  {
    FrameBytesBounds(n);
  }

  lemma AlignedSum(a: int, b: int)
    requires Aligned(a) && Aligned(b)
    ensures Aligned(a + b)
  {
  }

  lemma RingPopped(cfg: Config, s: State, a: Aux, seen: nat)
    requires RingInv(cfg, s, a) && Aligned(cfg.size) && a.frames != []
    ensures var len := Length(a.frames[0], s.read, cfg.size);
      RingInv(cfg, s.(read := s.read + len), Aux(a.frames[1..], seen))
  {
    hide FrameAt, Length, Aligned;
    var len := Length(a.frames[0], s.read, cfg.size);
    AlignedLength(cfg, s.read, a.frames[0]);
    EndGrows(s.read + len, a.frames[1..], cfg.size);
  }

  // ---------------------------------------------------------------------------------------
  // Bookkeeping

  function TrackWriter(s: State, a: Aux): Aux {
    match s.writer
    case WSkip(_, _, _) => a.(frames := a.frames + [Wrap])
    case WCommit(_, _, _) => if s.outbox == [] then a else a.(frames := a.frames + [Data(s.outbox[0])])
    case _ => a
  }

  function TrackReader(s: State, a: Aux): Aux {
    match s.reader
    case RWrite(_, _) => a.(seen := |a.frames|)
    case RReload(_, _, _) => a.(seen := |a.frames|)
    case RSkip(_, _, _) => if a.frames == [] then a else a.(frames := a.frames[1..])
    case RCommit(_, _, _, _) => if a.frames == [] then a else a.(frames := a.frames[1..])
    case _ => a
  }

  // ---------------------------------------------------------------------------------------
  // Writer steps

  // The reader's part after a writer step.
  lemma ReaderKept(cfg: Config, s: State, s': State, a: Aux, a': Aux)
    requires ReaderInv(cfg, s, a) && s'.reader == s.reader && s'.read == s.read
    requires a'.seen == a.seen && a.frames <= a'.frames
    ensures ReaderInv(cfg, s', a')
  {
    if 0 < a.seen <= |a.frames| {
      assert a'.frames[..a.seen] == a.frames[..a.seen];
    }
  }

  lemma WriterTests(cfg: Config, s: State, a: Aux)
    requires Sized(cfg) && RingInv(cfg, s, a) && WriterInv(cfg, s) && OutboxInv(cfg, s)
    requires s.writer.WRead? || s.writer.WRecheck?
    ensures var w := s.writer.w; var frame := FrameBytes(|s.outbox[0]|);
      && frame <= cfg.size
      && Decide(w, s.read, frame, cfg.size) != ShortTail
      && (s.writer.WRecheck? ==> cfg.size - Used(w, s.read, cfg.size) >= frame)
  {
    AlignedOffset(s.writer.w, cfg.size);
    FrameBytesMonotone(|s.outbox[0]|, cfg.maxBytes);
  }

  // Read, write and the reader's part are as they were.
  ghost predicate Beside(s: State, s': State) {
    && s'.read == s.read && s'.reader == s.reader && s'.recvOk == s.recvOk && s'.delivered == s.delivered
  }

  lemma TestStep(cfg: Config, s: State, a: Aux, c: Call)
    requires Sized(cfg) && RingInv(cfg, s, a) && WriterInv(cfg, s) && OutboxInv(cfg, s)
    requires s.writer.WRead? || s.writer.WRecheck?
    ensures var s' := WriterStep(cfg, s, c);
      && s'.ring == s.ring && s'.write == s.write && Beside(s, s')
      && WriterInv(cfg, s') && OutboxInv(cfg, s')
  {
    WriterTests(cfg, s, a);
    hide RingInv, Sized, FrameBytes, Contiguous, Offset;
  }

  lemma LocalStep(cfg: Config, s: State, c: Call)
    requires Sized(cfg) && WriterInv(cfg, s) && OutboxInv(cfg, s)
    requires s.writer.WIdle? || s.writer.WLoop? || s.writer.WCount?
    ensures var s' := WriterStep(cfg, s, c);
      && s'.ring == s.ring && s'.write == s.write && Beside(s, s')
      && WriterInv(cfg, s') && OutboxInv(cfg, s')
      && (s.writer.WLoop? && s.outbox != [] ==> FrameBytes(|s.outbox[0]|) <= cfg.size)
  {
    if s.writer.WLoop? && s.outbox != [] { FrameBytesMonotone(|s.outbox[0]|, cfg.maxBytes); }
    hide FrameBytes, Contiguous, Offset, Placed, Tail;
  }

  // ---------------------------------------------------------------------------------------
  // Stores into the ring

  lemma WordStored(ring: seq<Byte>, off: nat, v: nat, lo: nat, hi: nat)
    requires lo <= off && off + 4 <= hi <= |ring| && v < WORD
    ensures var ring' := PutWordAt(ring, off, v);
      SameElse(ring, ring', off, off + 4) && SameElse(ring, ring', lo, hi) && WordAt(ring', off) == v
  {
    hide PutWord, Word;
    WordRoundTrip(ring, off, v);
  }

  lemma WordKept(ring: seq<Byte>, ring': seq<Byte>, lo: nat, hi: nat, off: nat)
    requires SameElse(ring, ring', lo, hi) && (off + 4 <= lo || hi <= off)
    ensures WordAt(ring', off) == WordAt(ring, off)
  {
  }

  lemma MarkStep(cfg: Config, s: State, a: Aux, c: Call)
    requires Sized(cfg) && RingInv(cfg, s, a) && WriterInv(cfg, s)
    requires s.writer.WMarkSize? || s.writer.WMarkFlag?
    ensures var s' := WriterStep(cfg, s, c);
      && s'.write == s.write && Beside(s, s') && s'.outbox == s.outbox
      && RingInv(cfg, s', a) && Agree(s.ring, s'.ring, s.read, s.write) && WriterInv(cfg, s')
  {
    hide Offset, PutWordAt, WordAt, Frames, End, Aligned, Agree;
    var s' := WriterStep(cfg, s, c);
    var off := Offset(s.writer.w, cfg.size);
    if s.writer.WMarkSize? {
      WordStored(s.ring, off, 0, off, off + 8);
    } else {
      WordStored(s.ring, off + 4, FRAME_WRAP, off, off + 8);
    }
    RingWritten(cfg, s, s', a, 8);
  }

  lemma SizeStored(cfg: Config, s: State, p: Writer, w: nat)
    requires Placed(cfg, s, w) && |s.ring| == cfg.size && |s.outbox[0]| < WORD
    ensures var off := Offset(w, cfg.size); var ring' := PutWordAt(s.ring, off, |s.outbox[0]|);
      SameElse(s.ring, ring', off, off + 8) && SizeSet(cfg, s.(ring := ring', writer := p), w)
  {
    hide Offset, FrameBytes, PutWordAt, WordAt;
    var off := Offset(w, cfg.size);
    FrameBytesBounds(|s.outbox[0]|);
    WordStored(s.ring, off, |s.outbox[0]|, off, off + 8);
  }

  lemma FlagStored(cfg: Config, s: State, p: Writer, w: nat)
    requires SizeSet(cfg, s, w) && |s.ring| == cfg.size
    ensures var off := Offset(w, cfg.size); var ring' := PutWordAt(s.ring, off + 4, FRAME_DATA);
      SameElse(s.ring, ring', off, off + 8) && Copied(cfg, s.(ring := ring', writer := p), w, 0)
  {
    hide Offset, FrameBytes, PutWordAt, WordAt;
    var off := Offset(w, cfg.size);
    FrameBytesBounds(|s.outbox[0]|);
    WordStored(s.ring, off + 4, FRAME_DATA, off, off + 8);
    WordKept(s.ring, PutWordAt(s.ring, off + 4, FRAME_DATA), off + 4, off + 8, off);
    assert s.outbox[0][..0] == [];
  }

  // A byte past the header is stored: at j it is either the next payload byte or padding.
  lemma ByteStored(cfg: Config, s: State, p: Writer, w: nat, j: nat, n: nat, b: Byte)
    requires Copied(cfg, s, w, n) && |s.ring| == cfg.size && n <= j && HEADER_BYTES + j < FrameBytes(|s.outbox[0]|)
    ensures var off := Offset(w, cfg.size); var ring' := PutByteAt(s.ring, off + HEADER_BYTES + j, b);
      && SameElse(s.ring, ring', off, off + FrameBytes(|s.outbox[0]|))
      && Copied(cfg, s.(ring := ring', writer := p), w, n)
      && (n == j < |s.outbox[0]| && b == s.outbox[0][j] ==> Copied(cfg, s.(ring := ring', writer := p), w, n + 1))
  {
    hide Offset, FrameBytes, WordAt;
    var off := Offset(w, cfg.size);
    var ring' := PutByteAt(s.ring, off + HEADER_BYTES + j, b);
    WordKept(s.ring, ring', off + 8, off + FrameBytes(|s.outbox[0]|), off);
    WordKept(s.ring, ring', off + 8, off + FrameBytes(|s.outbox[0]|), off + 4);
    assert ring'[off + 8..off + 8 + n] == s.ring[off + 8..off + 8 + n];
    if n == j < |s.outbox[0]| {
      assert ring'[off + 8..off + 8 + j + 1] == ring'[off + 8..off + 8 + j] + [b];
      assert s.outbox[0][..j + 1] == s.outbox[0][..j] + [s.outbox[0][j]];
    }
  }

  lemma HeaderStep(cfg: Config, s: State, a: Aux, c: Call)
    requires Sized(cfg) && RingInv(cfg, s, a) && WriterInv(cfg, s) && OutboxInv(cfg, s)
    requires s.writer.WSize? || s.writer.WFlag?
    ensures var s' := WriterStep(cfg, s, c);
      && s'.write == s.write && Beside(s, s') && s'.outbox == s.outbox
      && RingInv(cfg, s', a) && Agree(s.ring, s'.ring, s.read, s.write) && WriterInv(cfg, s')
  {
    hide Offset, FrameBytes, PutWordAt, WordAt, SameElse, Copied, Frames, End, Aligned, Agree;
    var s' := WriterStep(cfg, s, c);
    FrameBytesBounds(|s.outbox[0]|);
    if s.writer.WSize? { SizeStored(cfg, s, s'.writer, s.writer.w); } else { FlagStored(cfg, s, s'.writer, s.writer.w); }
    assert Placed(cfg, s, s.writer.w);
    RingWritten(cfg, s, s', a, 8);
  }

  lemma CopyStep(cfg: Config, s: State, a: Aux, c: Call)
    requires Sized(cfg) && RingInv(cfg, s, a) && WriterInv(cfg, s)
    requires s.writer.WCopy? || s.writer.WPad?
    ensures var s' := WriterStep(cfg, s, c);
      && s'.write == s.write && Beside(s, s') && s'.outbox == s.outbox
      && RingInv(cfg, s', a) && Agree(s.ring, s'.ring, s.read, s.write) && WriterInv(cfg, s')
  {
    hide Offset, FrameBytes, PutByteAt, WordAt, SameElse, Frames, End, Aligned, Agree;
    var s' := WriterStep(cfg, s, c);
    var w, j, n := s.writer.w, s.writer.j, |s.outbox[0]|;
    FrameBytesBounds(n);
    if s.writer.WCopy? && j < n {
      ByteStored(cfg, s, s'.writer, w, j, j, s.outbox[0][j]);
    } else if s.writer.WPad? && HEADER_BYTES + j < FrameBytes(n) {
      ByteStored(cfg, s, s'.writer, w, j, n, 0);
    }
    RingWritten(cfg, s, s', a, FrameBytes(n));
  }

  // ---------------------------------------------------------------------------------------
  // The two stores of write_index

  lemma WrapFrame(cfg: Config, s: State, w: nat)
    requires Sized(cfg) && Tail(cfg, s, w) && |s.ring| == cfg.size
    requires FrameBytes(|s.outbox[0]|) <= cfg.size
    requires WordAt(s.ring, Offset(w, cfg.size) + 4) == FRAME_WRAP
    ensures FrameAt(s.ring, w, Wrap, cfg.maxBytes)
  {
    hide FrameBytes, Offset;
  }

  lemma DataFrame(cfg: Config, s: State, w: nat)
    requires |s.ring| == cfg.size && s.outbox != [] && Copied(cfg, s, w, |s.outbox[0]|)
    requires |s.outbox[0]| <= cfg.maxBytes
    ensures FrameAt(s.ring, w, Data(s.outbox[0]), cfg.maxBytes)
  {
    hide FrameBytes, Offset, Word;
    FrameBytesBounds(|s.outbox[0]|);
    assert s.outbox[0][..|s.outbox[0]|] == s.outbox[0];
  }

  lemma SkipStep(cfg: Config, s: State, a: Aux, c: Call)
    requires Sized(cfg) && RingInv(cfg, s, a) && WriterInv(cfg, s) && OutboxInv(cfg, s) && s.writer.WSkip?
    ensures var s' := WriterStep(cfg, s, c);
      && s' == s.(write := s'.write, writer := s'.writer)
      && RingInv(cfg, s', TrackWriter(s, a)) && WriterInv(cfg, s')
  {
    hide FrameBytes, Offset, Frames, End, WordAt, Aligned;
    var w := s.writer.w;
    FrameBytesMonotone(|s.outbox[0]|, cfg.maxBytes);
    WrapFrame(cfg, s, w);
    RingExtended(cfg, s, a, Wrap);
    NextLap(w, cfg.size);
  }

  lemma CommitStep(cfg: Config, s: State, a: Aux, c: Call)
    requires Sized(cfg) && RingInv(cfg, s, a) && WriterInv(cfg, s) && OutboxInv(cfg, s) && s.writer.WCommit?
    ensures var s' := WriterStep(cfg, s, c);
      && s' == s.(write := s'.write, writer := s'.writer) && s'.writer.WCount?
      && RingInv(cfg, s', TrackWriter(s, a)) && WriterInv(cfg, s')
  {
    hide FrameBytes, Offset, Frames, End, WordAt, Aligned, HeaderSet;
    DataFrame(cfg, s, s.writer.w);
    CopiedRoom(cfg, s, s.writer.w);
    RingExtended(cfg, s, a, Data(s.outbox[0]));
  }

  lemma CopiedRoom(cfg: Config, s: State, w: nat)
    requires s.outbox != [] && Copied(cfg, s, w, |s.outbox[0]|)
    ensures w == s.write && w + FrameBytes(|s.outbox[0]|) <= s.read + cfg.size
  {
  }

  // ---------------------------------------------------------------------------------------
  // A writer step as a whole

  // Every byte between the two indices stays as it is.
  lemma WriterRing(cfg: Config, s: State, a: Aux, c: Call)
    requires Sized(cfg) && RingInv(cfg, s, a) && WriterInv(cfg, s) && OutboxInv(cfg, s)
    ensures var s' := WriterStep(cfg, s, c);
      && RingInv(cfg, s', TrackWriter(s, a)) && Agree(s.ring, s'.ring, s.read, s.write)
      && WriterInv(cfg, s') && OutboxInv(cfg, s') && Beside(s, s')
  {
    hide FrameBytes, Offset, Frames, End, Aligned, Copied, HeaderSet, SizeSet, Placed, Tail, Sized, WordAt, Decide, Used, PutWordAt, PutByteAt;
    match s.writer {
      case WIdle => LocalStep(cfg, s, c);
      case WLoop(_, _) => LocalStep(cfg, s, c);
      case WCount(_, _) => LocalStep(cfg, s, c);
      case WRead(_, _, _) => TestStep(cfg, s, a, c);
      case WRecheck(_, _, _) => TestStep(cfg, s, a, c);
      case WMarkSize(_, _, _) => MarkStep(cfg, s, a, c);
      case WMarkFlag(_, _, _) => MarkStep(cfg, s, a, c);
      case WSkip(_, _, _) => SkipStep(cfg, s, a, c);
      case WSize(_, _, _) => HeaderStep(cfg, s, a, c);
      case WFlag(_, _, _) => HeaderStep(cfg, s, a, c);
      case WCopy(_, _, _, _) => CopyStep(cfg, s, a, c);
      case WPad(_, _, _, _) => CopyStep(cfg, s, a, c);
      case WCommit(_, _, _) => CommitStep(cfg, s, a, c);
      case WFault =>
    }
  }

  // What one step does to the queue of messages in transit.
  datatype Change = Same | Push(msg: Message) | Pop(msg: Message)

  ghost predicate Changes(q: seq<Message>, q': seq<Message>, ch: Change) {
    match ch
    case Same => q' == q
    case Push(m) => q' == q + [m]
    case Pop(m) => q == [m] + q'
  }

  function WriterChange(cfg: Config, s: State): Change {
    match s.writer
    case WLoop(n, Accept(m)) => if (n == 0 || s.outbox == []) && |s.outbox| < OutboxLimit(cfg) then Push(m) else Same
    case WRead(n, Accept(m), w) =>
      if cfg.size > 0 && s.outbox != [] && Decide(w, s.read, FrameBytes(|s.outbox[0]|), cfg.size) == Blocked
         && |s.outbox| < OutboxLimit(cfg) then Push(m) else Same
    case _ => Same
  }

  lemma FrameCounted(fs: seq<Frame>, f: Frame)
    ensures Payloads(fs + [f]) == Payloads(fs) + (if f.Data? then [f.payload] else [])
  {
    PayloadsAppend(fs, [f]);
    assert Payloads([f]) == (if f.Data? then [f.payload] else []) + Payloads([]);
  }

  // The histories record what changed.
  ghost predicate Recorded(s: State, s': State, ch: Change) {
    && s'.accepted == s.accepted + (if ch.Push? then [ch.msg] else [])
    && s'.delivered == s.delivered + (if ch.Pop? then [ch.msg] else [])
  }

  // Messages out of the counters' view: committed but not yet counted.
  function InRing(s: State): int {
    s.sendOk + (if s.writer.WCount? then 1 else 0) - s.recvOk - (if s.reader.RCount? then 1 else 0)
  }

  lemma FlowKept(s: State, s': State, a: Aux, a': Aux, ch: Change)
    requires FlowInv(s, a) && Changes(Transit(s, a), Transit(s', a'), ch) && Recorded(s, s', ch)
    requires InRing(s') - |Payloads(a'.frames)| == InRing(s) - |Payloads(a.frames)|
    ensures FlowInv(s', a')
  {
    hide Transit, Payloads;
    if ch.Pop? {
      assert s.delivered + ([ch.msg] + Transit(s', a')) == s.delivered + [ch.msg] + Transit(s', a');
    }
  }

  lemma CommitTransit(s: State, s': State, a: Aux)
    requires s.writer.WCommit? && s.outbox != [] && s'.writer.WCount? && s'.outbox == s.outbox
    ensures Transit(s', TrackWriter(s, a)) == Transit(s, a)
    ensures |Payloads(TrackWriter(s, a).frames)| == |Payloads(a.frames)| + 1
  {
    hide Payloads;
    FrameCounted(a.frames, Data(s.outbox[0]));
    assert Payloads(a.frames) + s.outbox == Payloads(a.frames) + [s.outbox[0]] + s.outbox[1..];
  }

  // A flush ends: the message of the interrupted TrySend, if any, joins the outbox.
  lemma FlushTransit(cfg: Config, s: State, a: Aux, k: Cont)
    requires HasCont(s.writer) && !s.writer.WCount?
    ensures var s' := AfterFlush(cfg, s, k);
      var ch := if k.Accept? && |s.outbox| < OutboxLimit(cfg) then Push(k.msg) else Same;
      Changes(Transit(s, a), Transit(s', a), ch) && Recorded(s, s', ch) && InRing(s') == InRing(s)
  {
    hide Payloads, OutboxLimit, FlushBudget;
    if k.Accept? {
      assert Payloads(a.frames) + (s.outbox + [k.msg]) == Payloads(a.frames) + s.outbox + [k.msg];
    }
  }

  lemma FlushingTransit(cfg: Config, s: State, a: Aux, c: Call)
    requires Sized(cfg) && WriterInv(cfg, s) && OutboxInv(cfg, s) && (s.writer.WLoop? || s.writer.WRead?)
    ensures var s' := WriterStep(cfg, s, c);
      && Changes(Transit(s, a), Transit(s', a), WriterChange(cfg, s)) && Recorded(s, s', WriterChange(cfg, s))
      && InRing(s') == InRing(s)
  {
    hide FrameBytes, Payloads, Decide, AfterFlush, OutboxLimit;
    if s.outbox != [] { FrameFits(cfg, s.outbox[0]); }
    FlushTransit(cfg, s, a, s.writer.k);
  }

  lemma WriterTransit(cfg: Config, s: State, a: Aux, c: Call)
    requires Sized(cfg) && WriterInv(cfg, s) && OutboxInv(cfg, s)
    ensures var s' := WriterStep(cfg, s, c); var a' := TrackWriter(s, a);
      && Changes(Transit(s, a), Transit(s', a'), WriterChange(cfg, s)) && Recorded(s, s', WriterChange(cfg, s))
      && InRing(s') - |Payloads(a'.frames)| == InRing(s) - |Payloads(a.frames)|
  {
    hide FrameBytes, Offset, Payloads, Copied, HeaderSet, SizeSet, Tail, Placed, WordAt, Decide, Used, PutWordAt, PutByteAt, AfterFlush, OutboxInv;
    if s.writer.WSkip? {
      FrameCounted(a.frames, Wrap);
    } else if s.writer.WCommit? {
      CommitTransit(s, WriterStep(cfg, s, c), a);
    } else if s.writer.WLoop? || s.writer.WRead? {
      FlushingTransit(cfg, s, a, c);
    }
  }

  lemma FrameFits(cfg: Config, m: Message)
    requires Sized(cfg) && |m| <= cfg.maxBytes
    ensures FrameBytes(|m|) <= cfg.size
  {
    FrameBytesMonotone(|m|, cfg.maxBytes);
  }

  lemma WriterInvStep(cfg: Config, s: State, a: Aux, c: Call)
    requires Inv(cfg, s, a)
    ensures Inv(cfg, WriterStep(cfg, s, c), TrackWriter(s, a))
    ensures Agree(s.ring, WriterStep(cfg, s, c).ring, s.read, s.write)
    ensures Changes(Transit(s, a), Transit(WriterStep(cfg, s, c), TrackWriter(s, a)), WriterChange(cfg, s))
    ensures Recorded(s, WriterStep(cfg, s, c), WriterChange(cfg, s))
  {
    hide WriterStep, WriterInv, ReaderInv, FlowInv, RingInv, Agree, Transit, Changes, WriterChange, OutboxInv, Payloads, InRing, Recorded;
    var s', a' := WriterStep(cfg, s, c), TrackWriter(s, a);
    WriterRing(cfg, s, a, c);
    ReaderKept(cfg, s, s', a, a');
    WriterTransit(cfg, s, a, c);
    FlowKept(s, s', a, a', WriterChange(cfg, s));
  }

  // ---------------------------------------------------------------------------------------
  // Reader steps

  lemma SomeFrame(cfg: Config, s: State, a: Aux)
    requires Sized(cfg) && RingInv(cfg, s, a) && s.read < s.write
    ensures a.frames != [] && Contiguous(s.read, cfg.size) >= HEADER_BYTES
    ensures End(s.read, a.frames[..|a.frames|], cfg.size) == s.write
  {
    AlignedOffset(s.read, cfg.size);
    assert a.frames[..|a.frames|] == a.frames;
  }

  // The first frame ends within what the reader's copy of write_index covers.
  lemma FirstFrame(cfg: Config, s: State, a: Aux, r: nat, w: nat)
    requires RingInv(cfg, s, a) && Covers(cfg, s, a, r, w)
    ensures FrameAt(s.ring, r, a.frames[0], cfg.maxBytes)
    ensures r + Length(a.frames[0], r, cfg.size) <= w
  {
    hide FrameAt, Length, Aligned;
    var fs := a.frames[..a.seen];
    EndGrows(r + Length(fs[0], r, cfg.size), fs[1..], cfg.size);
  }

  lemma HeaderRead(ring: seq<Byte>, r: nat, f: Frame, maxBytes: nat)
    requires FrameAt(ring, r, f, maxBytes)
    ensures var off := Offset(r, |ring|);
      && WordAt(ring, off + 4) == (if f.Wrap? then FRAME_WRAP else FRAME_DATA)
      && (f.Wrap? ==> off != 0)
      && (f.Data? ==> WordAt(ring, off) == |f.payload| <= maxBytes && FrameBytes(|f.payload|) <= Contiguous(r, |ring|))
  {
    hide Word, Offset, FrameBytes;
  }

  // The write-index loads.
  lemma LoadStep(cfg: Config, s: State, a: Aux, buffer: nat)
    requires Sized(cfg) && RingInv(cfg, s, a) && ReaderInv(cfg, s, a)
    requires s.reader.RWrite? || s.reader.RReload?
    ensures ReaderInv(cfg, ReaderStep(cfg, s, buffer), TrackReader(s, a))
  {
    hide Frames, End, Offset, Aligned;
    if s.read < s.write { SomeFrame(cfg, s, a); }
  }

  lemma FlagStep(cfg: Config, s: State, a: Aux, buffer: nat)
    requires Sized(cfg) && RingInv(cfg, s, a) && ReaderInv(cfg, s, a) && s.reader.RFlag?
    ensures ReaderInv(cfg, ReaderStep(cfg, s, buffer), a)
  {
    hide Frames, End, Offset, Aligned, FrameAt, WordAt;
    var r := s.reader.r;
    FirstFrame(cfg, s, a, r, s.reader.w);
    HeaderRead(s.ring, r, a.frames[0], cfg.maxBytes);
    NextLap(r, cfg.size);
  }

  lemma SizeStep(cfg: Config, s: State, a: Aux, buffer: nat)
    requires Sized(cfg) && RingInv(cfg, s, a) && ReaderInv(cfg, s, a) && s.reader.RSize?
    ensures ReaderInv(cfg, ReaderStep(cfg, s, buffer), a)
  {
    hide Frames, End, Offset, Aligned, FrameAt, WordAt, FrameBytes;
    var r := s.reader.r;
    FirstFrame(cfg, s, a, r, s.reader.w);
    HeaderRead(s.ring, r, a.frames[0], cfg.maxBytes);
  }

  lemma PayloadByte(ring: seq<Byte>, r: nat, f: Frame, maxBytes: nat, i: nat)
    requires FrameAt(ring, r, f, maxBytes) && f.Data? && i < |f.payload|
    ensures var off := Offset(r, |ring|) + HEADER_BYTES + i; off < |ring| && ring[off] == f.payload[i]
  {
    hide Word, Offset, FrameBytes;
    var lo := Offset(r, |ring|) + HEADER_BYTES;
    assert ring[lo + i] == ring[lo..lo + |f.payload|][i];
  }

  lemma DataStep(cfg: Config, s: State, a: Aux, buffer: nat)
    requires Sized(cfg) && RingInv(cfg, s, a) && ReaderInv(cfg, s, a) && s.reader.RCopy?
    ensures ReaderInv(cfg, ReaderStep(cfg, s, buffer), a)
  {
    hide End, Offset, Aligned, FrameAt;
    var p, i := a.frames[0].payload, |s.reader.data|;
    if i < s.reader.n {
      PayloadByte(s.ring, s.read, a.frames[0], cfg.maxBytes, i);
      assert p[..i + 1] == p[..i] + [p[i]];
    }
  }

  // Only the room the writer found depends on read_index, and the reader widens it.
  lemma WriterKept(cfg: Config, s: State, s': State)
    requires WriterInv(cfg, s) && s'.writer == s.writer && s'.ring == s.ring && s'.write == s.write
    requires s'.outbox == s.outbox && s'.read >= s.read
    ensures WriterInv(cfg, s')
  {
    hide WordAt, Offset, FrameBytes;
  }

  function ReaderChange(s: State): Change {
    match s.reader
    case RCommit(_, _, _, data) => Pop(data)
    case _ => Same
  }

  lemma PopStep(cfg: Config, s: State, a: Aux, buffer: nat)
    requires Sized(cfg) && RingInv(cfg, s, a) && ReaderInv(cfg, s, a)
    requires s.reader.RSkip? || s.reader.RCommit?
    ensures var s' := ReaderStep(cfg, s, buffer); var a' := TrackReader(s, a);
      && RingInv(cfg, s', a') && ReaderInv(cfg, s', a') && s'.read >= s.read
      && Changes(Payloads(a.frames), Payloads(a'.frames), ReaderChange(s))
  {
    hide Frames, End, Offset, Aligned, FrameBytes;
    RingPopped(cfg, s, a, a.seen);
    if s.reader.RCommit? {
      assert s.reader.data == a.frames[0].payload;
    }
  }

  lemma ReaderOwn(cfg: Config, s: State, a: Aux, buffer: nat)
    requires Sized(cfg) && RingInv(cfg, s, a) && ReaderInv(cfg, s, a)
    ensures var s' := ReaderStep(cfg, s, buffer); var a' := TrackReader(s, a);
      && RingInv(cfg, s', a') && ReaderInv(cfg, s', a') && s'.read >= s.read
      && Changes(Payloads(a.frames), Payloads(a'.frames), ReaderChange(s))
  {
    hide Frames, End, Offset, Aligned, Payloads, Covers, Reading, SkipsOk, WordAt, FrameBytes, AtHead, Sized;
    match s.reader {
      case RWrite(_, _) => LoadStep(cfg, s, a, buffer);
      case RReload(_, _, _) => LoadStep(cfg, s, a, buffer);
      case RFlag(_, _, _, _) => FlagStep(cfg, s, a, buffer);
      case RSize(_, _, _, _) => SizeStep(cfg, s, a, buffer);
      case RCopy(_, _, _, _) => DataStep(cfg, s, a, buffer);
      case RSkip(_, _, _) => PopStep(cfg, s, a, buffer);
      case RCommit(_, _, _, _) => PopStep(cfg, s, a, buffer);
      case _ =>
    }
  }

  // The fields a reader step leaves alone, and those it records in.
  lemma ReaderFrame(cfg: Config, s: State, buffer: nat)
    requires Sized(cfg)
    ensures var s' := ReaderStep(cfg, s, buffer);
      && s'.ring == s.ring && s'.write == s.write && s'.writer == s.writer && s'.outbox == s.outbox
      && Recorded(s, s', ReaderChange(s))
      && InRing(s') == InRing(s) - (if s.reader.RCommit? then 1 else 0)
  {
    hide Offset, WordAt, FrameBytes;
  }

  lemma ReaderTransit(cfg: Config, s: State, a: Aux, buffer: nat)
    requires Sized(cfg) && RingInv(cfg, s, a) && ReaderInv(cfg, s, a)
    ensures var s' := ReaderStep(cfg, s, buffer); var a' := TrackReader(s, a);
      && Changes(Transit(s, a), Transit(s', a'), ReaderChange(s))
      && InRing(s') - |Payloads(a'.frames)| == InRing(s) - |Payloads(a.frames)|
  {
    hide ReaderStep, RingInv, ReaderInv, Payloads, TrackReader, InRing, Recorded;
    ReaderOwn(cfg, s, a, buffer);
    ReaderFrame(cfg, s, buffer);
    if s.reader.RCommit? {
      var q := if s.writer.WCount? && s.outbox != [] then s.outbox[1..] else s.outbox;
      assert [s.reader.data] + Payloads(TrackReader(s, a).frames) + q == [s.reader.data] + (Payloads(TrackReader(s, a).frames) + q);
    }
  }

  lemma ReaderInvStep(cfg: Config, s: State, a: Aux, buffer: nat)
    requires Inv(cfg, s, a)
    ensures Inv(cfg, ReaderStep(cfg, s, buffer), TrackReader(s, a))
    ensures Changes(Transit(s, a), Transit(ReaderStep(cfg, s, buffer), TrackReader(s, a)), ReaderChange(s))
    ensures Recorded(s, ReaderStep(cfg, s, buffer), ReaderChange(s))
  {
    hide ReaderStep, WriterInv, ReaderInv, FlowInv, RingInv, Transit, Changes, ReaderChange, Payloads, InRing, TrackReader, Recorded;
    var s', a' := ReaderStep(cfg, s, buffer), TrackReader(s, a);
    ReaderOwn(cfg, s, a, buffer);
    ReaderFrame(cfg, s, buffer);
    WriterKept(cfg, s, s');
    ReaderTransit(cfg, s, a, buffer);
    FlowKept(s, s', a, a', ReaderChange(s));
  }
}
