/** Frames as bytes: an eight-byte header, little-endian, and up to 4088 bytes of
    payload; what a decoder makes of the bytes it has gathered. */
module Framing {
  import opened Seqs

  type Byte = b: int | 0 <= b < 256

  type Bytes = seq<Byte>

  const MAGIC: int := 0xAFAF
  const HEADER: nat := 8
  const MAX_MESSAGE: nat := 4096
  const MAX_PAYLOAD: nat := 4088

  datatype Packet = Packet(kind: int, time: int, payload: Bytes)

  predicate Fits(p: Packet) {
    -32768 <= p.kind <= 32767 && -32768 <= p.time <= 32767 && |p.payload| <= MAX_PAYLOAD
  }

  /** Two bytes, the low one first. */
  function Word(x: int): Bytes
    requires 0 <= x < 65536
  {
    [x % 256, x / 256]
  }

  function Field(b: Bytes, at: nat): (x: int)
    requires at + 1 < |b|
    ensures 0 <= x < 65536
  {
    var low: int, high: int := b[at], b[at + 1];
    low + 256 * high
  }

  /** Two's complement. */
  function Signed(x: int): (y: int)
    requires 0 <= x < 65536
    ensures -32768 <= y <= 32767 && y % 65536 == x
  {
    if x < 32768 then x else x - 65536
  }

  function Header(p: Packet): (b: Bytes)
    requires Fits(p)
    ensures |b| == HEADER
  {
    Word(MAGIC) + Word(|p.payload|) + Word(p.kind % 65536) + Word(p.time % 65536)
  }

  function Encode(p: Packet): (b: Bytes)
    requires Fits(p)
    ensures |b| == HEADER + |p.payload| && HEADER <= |b| <= MAX_MESSAGE
  {
    Header(p) + p.payload
  }

  predicate AllFit(ps: seq<Packet>) {
    forall p :: p in ps ==> Fits(p)
  }

  function EncodeAll(ps: seq<Packet>): Bytes
    requires AllFit(ps)
  {
    if ps == [] then [] else EncodeAll(ps[..|ps| - 1]) + Encode(ps[|ps| - 1])
  }

  /** What gathered bytes amount to: `More` names the length the buffer has to reach
      before anything else can be said. */
  datatype Look = More(needed: nat) | Whole(packet: Packet) | Malformed

  predicate GoodHeader(b: Bytes)
    requires |b| >= HEADER
  {
    Field(b, 0) == MAGIC && Field(b, 2) <= MAX_PAYLOAD
  }

  function Examine(b: Bytes): Look {
    if |b| < HEADER then More(HEADER)
    else if !GoodHeader(b) then Malformed
    else if |b| == HEADER + Field(b, 2)
    then Whole(Packet(Signed(Field(b, 4)), Signed(Field(b, 6)), b[HEADER..]))
    else More(HEADER + Field(b, 2))
  }

  // ---------- one frame ----------

  lemma FieldOfWord(x: int)
    requires 0 <= x < 65536
    ensures Field(Word(x), 0) == x
  {
  }

  lemma WordOfField(b: Bytes, at: nat)
    requires at + 1 < |b|
    ensures Word(Field(b, at)) == b[at..at + 2]
  {
  }

  lemma SignedBack(x: int)
    requires -32768 <= x <= 32767
    ensures Signed(x % 65536) == x
  {
  }

  lemma HeaderBytes(p: Packet, tail: Bytes)
    requires Fits(p)
    ensures var b := Header(p) + tail;
            Field(b, 0) == MAGIC && Field(b, 2) == |p.payload|
            && Field(b, 4) == p.kind % 65536 && Field(b, 6) == p.time % 65536
  {
    FieldOfWord(|p.payload|);
    FieldOfWord(p.kind % 65536);
    FieldOfWord(p.time % 65536);
  }

  /** Decoding inverts encoding. */
  lemma ExamineEncoded(p: Packet)
    requires Fits(p)
    ensures Examine(Encode(p)) == Whole(p)
  {
    HeaderBytes(p, p.payload);
    SignedBack(p.kind);
    SignedBack(p.time);
    assert Encode(p)[HEADER..] == p.payload;
  }

  /** The bytes of a frame: the magic number, the length of the payload, type and stamp in
      two's complement, low bytes first, and the payload. */
  lemma FrameLayout(p: Packet)
    requires Fits(p)
    ensures var b := Encode(p);
            && 8 <= |b| <= 4096 && b[0] == 0xAF && b[1] == 0xAF
            && b[2] == |p.payload| % 256 && b[3] == |p.payload| / 256
            && b[4] == p.kind % 256 && b[5] == p.kind / 256 % 256
            && b[6] == p.time % 256 && b[7] == p.time / 256 % 256
            && b[8..] == p.payload
  {
    assert Encode(p)[HEADER..] == p.payload;
  }

  /** What a decoder makes of a header: only the magic number and the length are checked. */
  lemma HeaderChecked(b: Bytes)
    requires |b| >= 8
    ensures var size := b[2] as int + 256 * (b[3] as int);
            && (Examine(b).Malformed? <==> b[0] != 0xAF || b[1] != 0xAF || size > 4088)
            && (Examine(b).Whole? <==> b[0] == 0xAF && b[1] == 0xAF && size == |b| - 8 <= 4088)
  {
    assert Field(b, 0) == MAGIC <==> b[0] == 0xAF && b[1] == 0xAF;
  }

  /** A part of a frame only ever asks for more, and never for more than the frame. */
  lemma ExaminePart(p: Packet, k: nat)
    requires Fits(p) && k < |Encode(p)|
    ensures Examine(Encode(p)[..k]) == More(if k < HEADER then HEADER else |Encode(p)|)
  {
    if k >= HEADER {
      assert Encode(p)[..k] == Header(p) + p.payload[..k - HEADER];
      HeaderBytes(p, p.payload[..k - HEADER]);
    }
  }

  /** Encoding inverts decoding: only frames pass for frames. */
  lemma EncodeExamined(b: Bytes)
    requires Examine(b).Whole?
    ensures Fits(Examine(b).packet) && Encode(Examine(b).packet) == b
  {
    var p := Examine(b).packet;
    WordOfField(b, 0);
    WordOfField(b, 2);
    WordOfField(b, 4);
    WordOfField(b, 6);
    assert Header(p) == b[..HEADER];
  }

  /** The header alone fixes where a frame ends. */
  lemma SameFront(p: Packet, q: Packet, s: Bytes, t: Bytes)
    requires Fits(p) && Fits(q) && Encode(p) + s == Encode(q) + t
    ensures p == q && s == t
  {
    var b := Encode(p) + s;
    assert b == Header(p) + (p.payload + s) && b == Header(q) + (q.payload + t);
    HeaderBytes(p, p.payload + s);
    HeaderBytes(q, q.payload + t);
    SignedBack(p.kind);
    SignedBack(q.kind);
    SignedBack(p.time);
    SignedBack(q.time);
    assert p.payload == b[HEADER..HEADER + |p.payload|] == q.payload;
    assert s == b[|Encode(p)|..] == t;
  }

  // ---------- streams ----------

  lemma {:induction false} EncodeFirst(ps: seq<Packet>)
    requires AllFit(ps) && ps != []
    ensures EncodeAll(ps) == Encode(ps[0]) + EncodeAll(ps[1..])
  {
    var last := |ps| - 1;
    if last == 0 {
      assert EncodeAll(ps) == [] + Encode(ps[0]) && EncodeAll(ps[1..]) == [];
    } else {
      var most, rest := ps[..last], ps[1..];
      EncodeFirst(most);
      assert most[1..] == rest[..last - 1] && rest[last - 1] == ps[last];
      Regroup(Encode(ps[0]), EncodeAll(most[1..]), Encode(ps[last]));
    }
  }

  lemma EncodeNext(ps: seq<Packet>, p: Packet)
    requires AllFit(ps) && Fits(p)
    ensures AllFit(ps + [p]) && EncodeAll(ps + [p]) == EncodeAll(ps) + Encode(p)
  {
    assert (ps + [p])[..|ps|] == ps;
  }

  /** Frames cut off the front of a stream of frames are those frames, in that order,
      and what remains is the encoding of the others. */
  lemma {:induction false} FrontFrames(ds: seq<Packet>, rest: Bytes, ps: seq<Packet>)
    requires AllFit(ds) && AllFit(ps) && EncodeAll(ds) + rest == EncodeAll(ps)
    ensures ds <= ps && rest == EncodeAll(ps[|ds|..])
  {
    if ds == [] {
      assert EncodeAll(ds) + rest == rest && ps[0..] == ps;
    } else {
      EncodeFirst(ds);
      assert |EncodeAll(ps)| > 0;
      EncodeFirst(ps);
      Regroup(Encode(ds[0]), EncodeAll(ds[1..]), rest);
      SameFront(ds[0], ps[0], EncodeAll(ds[1..]) + rest, EncodeAll(ps[1..]));
      FrontFrames(ds[1..], rest, ps[1..]);
      assert ps[1..][|ds| - 1..] == ps[|ds|..];
      assert ds == [ds[0]] + ds[1..] && ps == [ps[0]] + ps[1..];
    }
  }
}
