/**
 The bytes of the shared ring: frames with an eight-byte header, and the wrap markers that
 send the reader back to the start of the ring.
 */
module RingLayout {
  import opened Modular
  import opened RingSizing

  type Byte = b: nat | b < 256
  type Message = seq<Byte>

  const FRAME_DATA: nat := 0
  const FRAME_WRAP: nat := 1

  // ---------------------------------------------------------------------------------------
  // 32-bit words in the ring

  function Little(b0: int, b1: int, b2: int, b3: int): int {
    b0 + 256 * (b1 + 256 * (b2 + 256 * b3))
  }

  function Word(ring: seq<Byte>, off: nat): int
    requires off + 4 <= |ring|
  {
    Little(ring[off], ring[off + 1], ring[off + 2], ring[off + 3])
  }

  // Byte i of a word, the least significant one first.
  function Digit(v: nat, i: nat): Byte {
    (if i == 0 then v else if i == 1 then v / 256 else if i == 2 then v / 256 / 256 else v / 256 / 256 / 256) % 256
  }

  function PutWord(ring: seq<Byte>, off: nat, v: nat): (r: seq<Byte>)
    requires off + 4 <= |ring|
    ensures |r| == |ring|
  {
    ring[off := Digit(v, 0)][off + 1 := Digit(v, 1)][off + 2 := Digit(v, 2)][off + 3 := Digit(v, 3)]
  }

  lemma Digits(v: nat)
    requires v < WORD
    ensures Little(Digit(v, 0), Digit(v, 1), Digit(v, 2), Digit(v, 3)) == v
  {
    assert v / 256 / 256 / 256 < 256;
  }

  lemma WordRoundTrip(ring: seq<Byte>, off: nat, v: nat)
    requires off + 4 <= |ring| && v < WORD
    ensures Word(PutWord(ring, off, v), off) == v
    ensures forall i | 0 <= i < |ring| && !(off <= i < off + 4) :: PutWord(ring, off, v)[i] == ring[i]
  {
    Digits(v);
  }

  // ---------------------------------------------------------------------------------------
  // Frames

  datatype Frame = Wrap | Data(payload: Message)

  function Offset(pos: nat, size: nat): (off: nat)
    requires size > 0
    ensures off < size
  {
    pos % size
  }

  // Bytes from a position to the end of the ring.
  function Contiguous(pos: nat, size: nat): nat
    requires size > 0
  {
    size - Offset(pos, size)
  }

  function Length(f: Frame, pos: nat, size: nat): nat
    requires size > 0
  {
    match f
    case Wrap => Contiguous(pos, size)
    case Data(p) => FrameBytes(|p|)
  }

  // The bytes at pos are frame f, which does not cross the end of the ring.
  ghost predicate FrameAt(ring: seq<Byte>, pos: nat, f: Frame, maxBytes: nat)
  {
    && |ring| > 0
    && HEADER_BYTES <= Length(f, pos, |ring|) <= Contiguous(pos, |ring|)
    && match f
       case Wrap => Offset(pos, |ring|) != 0 && Word(ring, Offset(pos, |ring|) + 4) == FRAME_WRAP
       case Data(p) =>
         var off := Offset(pos, |ring|);
         && |p| <= maxBytes && off + HEADER_BYTES + |p| <= |ring|
         && Word(ring, off) == |p| && Word(ring, off + 4) == FRAME_DATA
         && ring[off + HEADER_BYTES..off + HEADER_BYTES + |p|] == p
  }

  // The frames fs follow one another from pos.
  ghost predicate Frames(ring: seq<Byte>, pos: nat, fs: seq<Frame>, maxBytes: nat)
    decreases |fs|
  {
    fs == [] ||
    (FrameAt(ring, pos, fs[0], maxBytes) && Frames(ring, pos + Length(fs[0], pos, |ring|), fs[1..], maxBytes))
  }

  function End(pos: nat, fs: seq<Frame>, size: nat): nat
    requires size > 0
    decreases |fs|
  {
    if fs == [] then pos else End(pos + Length(fs[0], pos, size), fs[1..], size)
  }

  function Payloads(fs: seq<Frame>): seq<Message> {
    if fs == [] then []
    else (if fs[0].Data? then [fs[0].payload] else []) + Payloads(fs[1..])
  }

  // The two rings agree on the positions lo .. hi - 1.
  ghost predicate Agree(ring: seq<Byte>, ring': seq<Byte>, lo: nat, hi: nat) {
    && |ring| == |ring'| > 0
    && (forall j | lo <= j < hi :: ring'[Offset(j, |ring|)] == ring[Offset(j, |ring|)])
  }

  lemma OffsetWithin(pos: nat, i: nat, size: nat)
    requires size > 0 && i < Contiguous(pos, size)
    ensures Offset(pos + i, size) == Offset(pos, size) + i
  {
    assert pos == (pos / size) * size + pos % size;
    UniqueRemainder(pos + i, size, pos / size, pos % size + i);
  }

  lemma ByteKept(ring: seq<Byte>, ring': seq<Byte>, pos: nat, len: nat, j: nat)
    requires Agree(ring, ring', pos, pos + len) && len <= Contiguous(pos, |ring|)
    requires Offset(pos, |ring|) <= j < Offset(pos, |ring|) + len
    ensures ring'[j] == ring[j]
  {
    var i := j - Offset(pos, |ring|);
    OffsetWithin(pos, i, |ring|);
    assert ring'[Offset(pos + i, |ring|)] == ring[Offset(pos + i, |ring|)];
  }

  // The bytes lo .. hi - 1 are the same in both rings.
  ghost predicate SameBytes(ring: seq<Byte>, ring': seq<Byte>, lo: nat, hi: nat) {
    |ring| == |ring'| && hi <= |ring| && forall j | lo <= j < hi :: ring'[j] == ring[j]
  }

  lemma FrameKept(ring: seq<Byte>, ring': seq<Byte>, pos: nat, f: Frame, maxBytes: nat)
    requires FrameAt(ring, pos, f, maxBytes) && Agree(ring, ring', pos, pos + Length(f, pos, |ring|))
    ensures FrameAt(ring', pos, f, maxBytes)
  {
    var off, len := Offset(pos, |ring|), Length(f, pos, |ring|);
    forall j | off <= j < off + len ensures ring'[j] == ring[j] {
      ByteKept(ring, ring', pos, len, j);
    }
    FrameSame(ring, ring', pos, f, maxBytes);
  }

  lemma FrameSame(ring: seq<Byte>, ring': seq<Byte>, pos: nat, f: Frame, maxBytes: nat)
    requires FrameAt(ring, pos, f, maxBytes)
    requires SameBytes(ring, ring', Offset(pos, |ring|), Offset(pos, |ring|) + Length(f, pos, |ring|))
    ensures FrameAt(ring', pos, f, maxBytes)
  {
    var off := Offset(pos, |ring|);
    if f.Data? {
      FrameBytesBounds(|f.payload|);
      assert ring'[off + HEADER_BYTES..off + HEADER_BYTES + |f.payload|]
          == ring[off + HEADER_BYTES..off + HEADER_BYTES + |f.payload|];
    }
  }

  lemma {:induction false} EndGrows(pos: nat, fs: seq<Frame>, size: nat)
    requires size > 0
    ensures pos <= End(pos, fs, size)
    decreases |fs|
  {
    if fs != [] { EndGrows(pos + Length(fs[0], pos, size), fs[1..], size); }
  }

  lemma {:induction false} FramesKept(ring: seq<Byte>, ring': seq<Byte>, pos: nat, fs: seq<Frame>, maxBytes: nat)
    requires |ring| > 0 && Frames(ring, pos, fs, maxBytes) && Agree(ring, ring', pos, End(pos, fs, |ring|))
    ensures Frames(ring', pos, fs, maxBytes)
    decreases |fs|
  {
    if fs != [] {
      var next := pos + Length(fs[0], pos, |ring|);
      EndGrows(next, fs[1..], |ring|);
      FrameKept(ring, ring', pos, fs[0], maxBytes);
      FramesKept(ring, ring', next, fs[1..], maxBytes);
    }
  }

  lemma {:induction false} FramesAppend(ring: seq<Byte>, pos: nat, fs: seq<Frame>, f: Frame, maxBytes: nat)
    requires |ring| > 0 && Frames(ring, pos, fs, maxBytes)
    requires FrameAt(ring, End(pos, fs, |ring|), f, maxBytes)
    ensures Frames(ring, pos, fs + [f], maxBytes)
    ensures End(pos, fs + [f], |ring|) == End(pos, fs, |ring|) + Length(f, End(pos, fs, |ring|), |ring|)
    decreases |fs|
  {
    hide FrameAt, Length;
    if fs == [] {
      assert fs + [f] == [f];
    } else {
      assert (fs + [f])[1..] == fs[1..] + [f];
      FramesAppend(ring, pos + Length(fs[0], pos, |ring|), fs[1..], f, maxBytes);
    }
  }

  lemma {:induction false} PayloadsAppend(fs: seq<Frame>, gs: seq<Frame>)
    ensures Payloads(fs + gs) == Payloads(fs) + Payloads(gs)
    decreases |fs|
  {
    if fs == [] {
      assert fs + gs == gs;
    } else {
      assert (fs + gs)[1..] == fs[1..] + gs;
      PayloadsAppend(fs[1..], gs);
    }
  }
}
