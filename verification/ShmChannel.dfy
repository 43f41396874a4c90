/**
 The shared-memory channel: one writer and one reader on a byte ring.

 The writer keeps accepted messages in a local outbox and flushes them by budget; the reader
 receives one message per call. Every load and store of an index or counter, every store of a
 header field and every byte copied is one step, and the two sides interleave freely.
 */
module ShmChannel {
  import opened Modular
  import opened RingSizing
  import opened RingLayout

  datatype Config = Config(capacity: nat, maxBytes: nat, size: nat)

  function OutboxLimit(cfg: Config): nat {
    if cfg.capacity * 2 < 4 then 4 else cfg.capacity * 2
  }

  function FlushBudget(cfg: Config): nat {
    var m := if OutboxLimit(cfg) < 8 then OutboxLimit(cfg) else 8;
    if m < 1 then 1 else m
  }

  // ---------------------------------------------------------------------------------------
  // States

  // What follows a flush: the second half of TrySend, or nothing.
  datatype Cont = Accept(msg: Message) | Leave

  // `budget` is what ProcessIoOnce may still write; w is the writer's copy of write_index.
  datatype Writer =
    | WIdle
    | WLoop(budget: nat, k: Cont)                       // loop head, then load of write_index
    | WRead(budget: nat, k: Cont, w: nat)               // load of read_index and the full test
    | WMarkSize(budget: nat, k: Cont, w: nat)           // wrap->size = 0
    | WMarkFlag(budget: nat, k: Cont, w: nat)           // wrap->reserved = kFrameWrap
    | WSkip(budget: nat, k: Cont, w: nat)               // store of write_index past the tail
    | WRecheck(budget: nat, k: Cont, w: nat)            // second load of read_index and full test
    | WSize(budget: nat, k: Cont, w: nat)               // frame->size
    | WFlag(budget: nat, k: Cont, w: nat)               // frame->reserved = kFrameData
    | WCopy(budget: nat, k: Cont, w: nat, j: nat)       // payload byte j
    | WPad(budget: nat, k: Cont, w: nat, j: nat)        // padding byte j
    | WCommit(budget: nat, k: Cont, w: nat)             // store of write_index
    | WCount(budget: nat, k: Cont)                      // send_ok, then the outbox is popped
    | WFault                                            // a branch shown unreachable

  // r is the reader's copy of read_index, w of write_index; `skips` counts wrap markers.
  datatype Reader =
    | RIdle
    | RStart(buffer: nat)                               // load of read_index
    | RWrite(buffer: nat, r: nat)                       // load of write_index
    | RFlag(buffer: nat, r: nat, w: nat, skips: nat)    // frame->reserved
    | RSkip(buffer: nat, r: nat, skips: nat)            // store of read_index past the tail
    | RReload(buffer: nat, r: nat, skips: nat)          // load of write_index after a skip
    | RSize(buffer: nat, r: nat, w: nat, skips: nat)    // frame->size and the tests
    | RCopy(buffer: nat, r: nat, n: nat, data: Message)   // the bytes copied so far
    | RCommit(buffer: nat, r: nat, n: nat, data: Message) // store of read_index
    | RCount(n: nat)                                    // recv_ok
    | RFault                                            // a branch shown unreachable

  // What the last finished TryRecv and TrySend answered.
  datatype RecvAnswer = NotAsked | Received(n: nat) | NoMessage | TooSmall(required: nat)
  datatype SendAnswer = NotSent | Sent | QueueFull | TooLong

  datatype State = State(
    ring: seq<Byte>,
    write: nat,
    read: nat,
    sendOk: nat,
    recvOk: nat,
    writer: Writer,
    reader: Reader,
    outbox: seq<Message>,
    accepted: seq<Message>,                             // history: TrySend returned Ok
    delivered: seq<Message>,                            // history: TryRecv returned them
    recvAnswer: RecvAnswer,
    sendAnswer: SendAnswer)

  // ---------------------------------------------------------------------------------------
  // The writer

  function Used(write: nat, read: nat, size: nat): nat {
    if write < read || write - read > size then size else write - read
  }

  datatype Decision = Blocked | Wraps | Fits | ShortTail

  // Where a frame goes, given both indices.
  function Decide(write: nat, read: nat, frame: nat, size: nat): Decision
    requires size > 0
  {
    var spare := size - Used(write, read, size);
    var contiguous := Contiguous(write, size);
    if contiguous < HEADER_BYTES || contiguous < frame then
      if spare < contiguous + frame then Blocked
      else if contiguous >= HEADER_BYTES then Wraps else ShortTail
    else if spare < frame then Blocked else Fits
  }

  function PutWordAt(ring: seq<Byte>, off: nat, v: nat): seq<Byte> {
    if off + 4 <= |ring| then PutWord(ring, off, v) else ring
  }

  function PutByteAt(ring: seq<Byte>, off: nat, v: Byte): seq<Byte> {
    if off < |ring| then ring[off := v] else ring
  }

  // The end of a flush.
  function AfterFlush(cfg: Config, s: State, k: Cont): State {
    match k
    case Leave => s.(writer := WIdle)
    case Accept(m) =>
      if |s.outbox| >= OutboxLimit(cfg) then s.(writer := WIdle, sendAnswer := QueueFull)
      else s.(outbox := s.outbox + [m], accepted := s.accepted + [m], sendAnswer := Sent,
              writer := WLoop(FlushBudget(cfg), Leave))
  }

  // What the caller of an idle endpoint asks for: a send, or the flush that a receive on the
  // same endpoint starts with.
  datatype Call = Send(msg: Message) | Flush

  // On a ring without bytes the writer never gets beyond the loop head.
  function WriterStep(cfg: Config, s: State, c: Call): State
    requires cfg.size > 0 || s.writer.WIdle? || s.writer.WLoop?
  {
    var msg := if s.outbox == [] then [] else s.outbox[0];
    var frame := FrameBytes(|msg|);
    match s.writer
    case WIdle =>
      (match c
       case Send(m) => if |m| > cfg.maxBytes then s.(sendAnswer := TooLong) else s.(writer := WLoop(1, Accept(m)))
       case Flush => s.(writer := WLoop(1, Leave)))
    case WLoop(n, k) =>
      if n == 0 || s.outbox == [] then AfterFlush(cfg, s, k)
      else if frame > cfg.size then s.(outbox := s.outbox[1..])
      else s.(writer := WRead(n, k, s.write))
    case WRead(n, k, w) =>
      (match Decide(w, s.read, frame, cfg.size)
       case Blocked => AfterFlush(cfg, s, k)
       case Wraps => s.(writer := WMarkSize(n, k, w))
       case Fits => s.(writer := WSize(n, k, w))
       case ShortTail => s.(writer := WFault))
    case WMarkSize(n, k, w) =>
      s.(ring := PutWordAt(s.ring, Offset(w, cfg.size), 0), writer := WMarkFlag(n, k, w))
    case WMarkFlag(n, k, w) =>
      s.(ring := PutWordAt(s.ring, Offset(w, cfg.size) + 4, FRAME_WRAP), writer := WSkip(n, k, w))
    case WSkip(n, k, w) =>
      var w' := w + Contiguous(w, cfg.size);
      s.(write := w', writer := WRecheck(n, k, w'))
    case WRecheck(n, k, w) =>
      s.(writer := if cfg.size - Used(w, s.read, cfg.size) < frame then WFault else WSize(n, k, w))
    case WSize(n, k, w) =>
      s.(ring := PutWordAt(s.ring, Offset(w, cfg.size), |msg|), writer := WFlag(n, k, w))
    case WFlag(n, k, w) =>
      s.(ring := PutWordAt(s.ring, Offset(w, cfg.size) + 4, FRAME_DATA), writer := WCopy(n, k, w, 0))
    case WCopy(n, k, w, j) =>
      if j < |msg| then
        s.(ring := PutByteAt(s.ring, Offset(w, cfg.size) + HEADER_BYTES + j, msg[j]), writer := WCopy(n, k, w, j + 1))
      else s.(writer := WPad(n, k, w, j))
    case WPad(n, k, w, j) =>
      if HEADER_BYTES + j < frame then
        s.(ring := PutByteAt(s.ring, Offset(w, cfg.size) + HEADER_BYTES + j, 0), writer := WPad(n, k, w, j + 1))
      else s.(writer := WCommit(n, k, w))
    case WCommit(n, k, w) => s.(write := w + frame, writer := WCount(n, k))
    case WCount(n, k) =>
      s.(sendOk := s.sendOk + 1, outbox := if s.outbox == [] then [] else s.outbox[1..],
         writer := WLoop(if n == 0 then 0 else n - 1, k))
    case WFault => s
  }

  // ---------------------------------------------------------------------------------------
  // The reader

  function WordAt(ring: seq<Byte>, off: nat): int {
    if off + 4 <= |ring| then Word(ring, off) else 0
  }

  function AtHead(cfg: Config, buffer: nat, r: nat, w: nat, skips: nat): Reader
    requires cfg.size > 0
  {
    if Contiguous(r, cfg.size) < HEADER_BYTES then RFault else RFlag(buffer, r, w, skips)
  }

  // Nor does the reader get beyond the comparison of the indices.
  function ReaderStep(cfg: Config, s: State, buffer: nat): State
    requires cfg.size > 0 || s.reader.RIdle? || s.reader.RStart? || (s.reader.RWrite? && s.reader.r >= s.write)
  {
    match s.reader
    case RIdle => s.(reader := RStart(buffer))
    case RStart(buf) => s.(reader := RWrite(buf, s.read))
    case RWrite(buf, r) =>
      if r >= s.write then s.(reader := RIdle, recvAnswer := NoMessage)
      else s.(reader := AtHead(cfg, buf, r, s.write, 0))
    case RFlag(buf, r, w, skips) =>
      var flag := WordAt(s.ring, Offset(r, cfg.size) + 4);
      s.(reader := if flag == FRAME_WRAP then RSkip(buf, r + Contiguous(r, cfg.size), skips + 1)
                   else if flag != FRAME_DATA then RFault
                   else RSize(buf, r, w, skips))
    case RSkip(buf, r, skips) => s.(read := r, reader := RReload(buf, r, skips))
    case RReload(buf, r, skips) =>
      if r >= s.write then s.(reader := RIdle, recvAnswer := NoMessage)
      else s.(reader := AtHead(cfg, buf, r, s.write, skips))
    case RSize(buf, r, w, skips) =>
      var n := WordAt(s.ring, Offset(r, cfg.size));
      if n < 0 || n > cfg.maxBytes then s.(reader := RFault)
      else if FrameBytes(n) > Contiguous(r, cfg.size) || r + FrameBytes(n) > w then s.(reader := RFault)
      else if n > buf then s.(reader := RIdle, recvAnswer := TooSmall(n))
      else s.(reader := RCopy(buf, r, n, []))
    case RCopy(buf, r, n, data) =>
      var off := Offset(r, cfg.size) + HEADER_BYTES + |data|;
      s.(reader := if |data| < n then RCopy(buf, r, n, data + [if off < |s.ring| then s.ring[off] else 0])
                   else RCommit(buf, r, n, data))
    case RCommit(_, r, n, data) =>
      s.(read := r + FrameBytes(n), delivered := s.delivered + [data], reader := RCount(n))
    case RCount(n) => s.(recvOk := s.recvOk + 1, reader := RIdle, recvAnswer := Received(n))
    case RFault => s
  }

  // ---------------------------------------------------------------------------------------
  // The invariant

  // The bookkeeping of the proof: the frames between the two indices, and how many of them
  // the reader's copy of write_index covers.
  datatype Aux = Aux(frames: seq<Frame>, seen: nat)

  predicate Aligned(x: int) {
    x % 8 == 0
  }

  ghost predicate Sized(cfg: Config) {
    && Aligned(cfg.size) && cfg.size >= 16
    && FrameBytes(cfg.maxBytes) <= cfg.size
    && cfg.maxBytes < WORD
  }

  ghost predicate RingInv(cfg: Config, s: State, a: Aux) {
    && |s.ring| == cfg.size > 0
    && Aligned(s.read) && Aligned(s.write)
    && s.read <= s.write <= s.read + cfg.size
    && Frames(s.ring, s.read, a.frames, cfg.maxBytes)
    && End(s.read, a.frames, cfg.size) == s.write
  }

  // Bytes of the message to be written, placed at w.
  ghost predicate Room(cfg: Config, s: State, w: nat, need: nat) {
    && cfg.size > 0 && s.outbox != [] && w == s.write
    && w + need <= s.read + cfg.size
  }

  ghost predicate Placed(cfg: Config, s: State, w: nat) {
    && s.outbox != [] && cfg.size > 0
    && Room(cfg, s, w, FrameBytes(|s.outbox[0]|))
    && FrameBytes(|s.outbox[0]|) <= Contiguous(w, cfg.size)
  }

  // The header field of the frame under construction, and its first j payload bytes.
  ghost predicate SizeSet(cfg: Config, s: State, w: nat) {
    Placed(cfg, s, w) && WordAt(s.ring, Offset(w, cfg.size)) == |s.outbox[0]|
  }

  ghost predicate HeaderSet(cfg: Config, s: State, w: nat) {
    SizeSet(cfg, s, w) && WordAt(s.ring, Offset(w, cfg.size) + 4) == FRAME_DATA
  }

  ghost predicate Copied(cfg: Config, s: State, w: nat, j: nat) {
    && HeaderSet(cfg, s, w)
    && j <= |s.outbox[0]|
    && Offset(w, cfg.size) + HEADER_BYTES + j <= |s.ring|
    && s.ring[Offset(w, cfg.size) + HEADER_BYTES..Offset(w, cfg.size) + HEADER_BYTES + j] == s.outbox[0][..j]
  }

  ghost predicate Tail(cfg: Config, s: State, w: nat) {
    && s.outbox != [] && cfg.size > 0
    && Room(cfg, s, w, Contiguous(w, cfg.size) + FrameBytes(|s.outbox[0]|))
    && HEADER_BYTES <= Contiguous(w, cfg.size) < FrameBytes(|s.outbox[0]|)
  }

  ghost predicate WriterInv(cfg: Config, s: State) {
    match s.writer
    case WIdle => true
    case WLoop(_, _) => true
    case WRead(_, _, w) => s.outbox != [] && w == s.write
    case WMarkSize(_, _, w) => Tail(cfg, s, w)
    case WMarkFlag(_, _, w) => Tail(cfg, s, w)
    case WSkip(_, _, w) => Tail(cfg, s, w) && WordAt(s.ring, Offset(w, cfg.size) + 4) == FRAME_WRAP
    case WRecheck(_, _, w) => Placed(cfg, s, w)
    case WSize(_, _, w) => Placed(cfg, s, w)
    case WFlag(_, _, w) => SizeSet(cfg, s, w)
    case WCopy(_, _, w, j) => Copied(cfg, s, w, j)
    case WPad(_, _, w, j) => s.outbox != [] && Copied(cfg, s, w, |s.outbox[0]|) && |s.outbox[0]| <= j
    case WCommit(_, _, w) => s.outbox != [] && Copied(cfg, s, w, |s.outbox[0]|)
    case WCount(_, _) => s.outbox != []
    case WFault => false
  }

  predicate HasCont(p: Writer) {
    !p.WIdle? && !p.WFault?
  }

  ghost predicate OutboxInv(cfg: Config, s: State) {
    && |s.outbox| <= OutboxLimit(cfg)
    && (forall m | m in s.outbox :: |m| <= cfg.maxBytes)
    && (HasCont(s.writer) && s.writer.k.Accept? ==> |s.writer.k.msg| <= cfg.maxBytes)
  }

  // The first frame is the one the reader is working on.
  ghost predicate Reading(s: State, a: Aux, r: nat, n: nat, data: Message) {
    && r == s.read && a.frames != [] && a.frames[0].Data?
    && n == |a.frames[0].payload| && |data| <= n && data == a.frames[0].payload[..|data|]
  }

  ghost predicate Covers(cfg: Config, s: State, a: Aux, r: nat, w: nat) {
    && cfg.size > 0 && r == s.read && 0 < a.seen <= |a.frames|
    && End(r, a.frames[..a.seen], cfg.size) == w
  }

  predicate SkipsOk(cfg: Config, r: nat, skips: nat) {
    cfg.size > 0 && skips <= 1 && (skips == 1 ==> Offset(r, cfg.size) == 0)
  }

  ghost predicate ReaderInv(cfg: Config, s: State, a: Aux) {
    match s.reader
    case RIdle => true
    case RStart(_) => true
    case RWrite(_, r) => r == s.read
    case RFlag(_, r, w, skips) => Covers(cfg, s, a, r, w) && SkipsOk(cfg, r, skips)
    case RSkip(_, r, skips) =>
      && cfg.size > 0 && a.frames != [] && a.frames[0] == Wrap
      && r == s.read + Contiguous(s.read, cfg.size) && SkipsOk(cfg, r, skips)
    case RReload(_, r, skips) => r == s.read && SkipsOk(cfg, r, skips)
    case RSize(_, r, w, skips) => Covers(cfg, s, a, r, w) && SkipsOk(cfg, r, skips) && a.frames[0].Data?
    case RCopy(buf, r, n, data) => Reading(s, a, r, n, data) && n <= buf
    case RCommit(buf, r, n, data) => Reading(s, a, r, n, data) && |data| == n <= buf
    case RCount(_) => true
    case RFault => false
  }

  // The messages accepted and not yet delivered: those of the ring, then those of the outbox.
  ghost function Pending(s: State, fs: seq<Frame>): seq<Message> {
    Payloads(fs) + (if s.writer.WCount? && s.outbox != [] then s.outbox[1..] else s.outbox)
  }

  ghost function Transit(s: State, a: Aux): seq<Message> {
    Pending(s, a.frames)
  }

  ghost predicate FlowInv(s: State, a: Aux) {
    && s.accepted == s.delivered + Transit(s, a)
    && s.sendOk + (if s.writer.WCount? then 1 else 0)
       == s.recvOk + (if s.reader.RCount? then 1 else 0) + |Payloads(a.frames)|
  }

  ghost predicate Inv(cfg: Config, s: State, a: Aux) {
    && Sized(cfg)
    && RingInv(cfg, s, a)
    && OutboxInv(cfg, s)
    && WriterInv(cfg, s)
    && ReaderInv(cfg, s, a)
    && FlowInv(s, a)
  }
}
