/** One channel at the level of bytes: the writer hands over arbitrary chunks, the
    reader takes arbitrary chunks, and what comes out is the queue of frames. */
module Tunnel {
  import opened Wire
  import opened Framing

  /** Bytes not yet accepted for writing, bytes in the pipe, the decoder's buffer, the
      frames delivered, and the reader's clock. */
  datatype Line = Line(unsent: Bytes, pipe: Bytes, buffer: Bytes, delivered: seq<Packet>, clock: int, broken: bool)

  datatype Chunk = Written(size: nat) | Fetched(size: nat)

  function Opened(ps: seq<Packet>, clock: int): Line
    requires AllFit(ps)
  {
    Line(EncodeAll(ps), [], [], [], clock, false)
  }

  predicate Possible(l: Line, c: Chunk) {
    && !l.broken && c.size >= 1
    && match c
       case Written(k) => k <= |l.unsent|
       case Fetched(k) =>
         var e := Examine(l.buffer);
         e.More? && k <= |l.pipe| && |l.buffer| + k <= e.needed
  }

  function Moved(l: Line, c: Chunk): Line
    requires Possible(l, c)
  {
    match c
    case Written(k) => l.(unsent := l.unsent[k..], pipe := l.pipe + l.unsent[..k])
    case Fetched(k) =>
      var q := l.(buffer := l.buffer + l.pipe[..k], pipe := l.pipe[k..]);
      match Examine(q.buffer)
      case More(_) => q
      case Malformed => q.(broken := true)
      case Whole(p) => q.(buffer := [], delivered := q.delivered + [p], clock := Later(q.clock, p.time))
  }

  ghost predicate Passage(ps: seq<Packet>, clock: int, lines: seq<Line>, chunks: seq<Chunk>) {
    && AllFit(ps) && |lines| == |chunks| + 1 && lines[0] == Opened(ps, clock)
    && forall x :: 0 <= x < |chunks| ==> Possible(lines[x], chunks[x]) && lines[x + 1] == Moved(lines[x], chunks[x])
  }

  function ClockAfter(clock: int, ds: seq<Packet>): int {
    if ds == [] then clock else Later(ClockAfter(clock, ds[..|ds| - 1]), ds[|ds| - 1].time)
  }

  /** The buffer holds the beginning of the next frame and nothing beyond it. */
  predicate Partial(buffer: Bytes, ps: seq<Packet>, next: nat)
    requires AllFit(ps)
  {
    buffer == [] || (next < |ps| && |buffer| < |Encode(ps[next])| && buffer == Encode(ps[next])[..|buffer|])
  }

  /** Nothing is lost, duplicated or reordered on the way. */
  ghost predicate Sound(l: Line, ps: seq<Packet>, clock: int)
    requires AllFit(ps)
  {
    && !l.broken && l.delivered <= ps && l.clock == ClockAfter(clock, l.delivered)
    && l.buffer + (l.pipe + l.unsent) == EncodeAll(ps[|l.delivered|..])
    && Partial(l.buffer, ps, |l.delivered|)
  }

  lemma PartialAsks(buffer: Bytes, ps: seq<Packet>, next: nat)
    requires AllFit(ps) && Partial(buffer, ps, next) && buffer != []
    ensures Examine(buffer) == More(if |buffer| < HEADER then HEADER else |Encode(ps[next])|)
  {
    ExaminePart(ps[next], |buffer|);
  }

  lemma ShiftBytes(a: Bytes, b: Bytes, k: nat, c: Bytes)
    requires k <= |b|
    ensures a + (b + c) == (a + b[..k]) + (b[k..] + c)
  {
  }

  lemma SameTail(a: Bytes, s: Bytes, t: Bytes)
    requires a + s == a + t
    ensures s == t
  {
    assert s == (a + s)[|a|..] && t == (a + t)[|a|..];
  }

  lemma WritingKeeps(l: Line, k: nat, ps: seq<Packet>, clock: int)
    requires AllFit(ps) && Sound(l, ps, clock) && Possible(l, Written(k))
    ensures Sound(Moved(l, Written(k)), ps, clock)
  {
    assert (l.pipe + l.unsent[..k]) + l.unsent[k..] == l.pipe + l.unsent;
  }

  /** The front of the remaining stream is the next frame. */
  lemma NextFront(stream: Bytes, ps: seq<Packet>, next: nat)
    requires AllFit(ps) && next <= |ps| && stream == EncodeAll(ps[next..]) && stream != []
    ensures next < |ps| && stream == Encode(ps[next]) + EncodeAll(ps[next + 1..])
  {
    assert next < |ps|;
    EncodeFirst(ps[next..]);
    assert ps[next..][1..] == ps[next + 1..];
  }

  /** A read that respects the decoder's limit stays inside the next frame. */
  lemma FetchStaysInside(l: Line, k: nat, ps: seq<Packet>, clock: int)
    requires AllFit(ps) && Sound(l, ps, clock) && Possible(l, Fetched(k))
    ensures var n := |l.delivered|;
            n < |ps| && |l.buffer| + k <= |Encode(ps[n])| && l.buffer + l.pipe[..k] == Encode(ps[n])[..|l.buffer| + k]
  {
    var n, stream := |l.delivered|, l.buffer + (l.pipe + l.unsent);
    NextFront(stream, ps, n);
    if l.buffer != [] { PartialAsks(l.buffer, ps, n); }
    ShiftBytes(l.buffer, l.pipe, k, l.unsent);
    assert l.buffer + l.pipe[..k] == stream[..|l.buffer| + k];
    assert stream[..|l.buffer| + k] == Encode(ps[n])[..|l.buffer| + k];
  }

  lemma DeliveredNext(ds: seq<Packet>, p: Packet, clock: int)
    ensures ClockAfter(clock, ds + [p]) == Later(ClockAfter(clock, ds), p.time)
  {
    assert (ds + [p])[..|ds|] == ds;
  }

  lemma FrameCompleted(l: Line, k: nat, ps: seq<Packet>, clock: int)
    requires AllFit(ps) && Possible(l, Fetched(k)) && |l.delivered| < |ps| && l.delivered <= ps && !l.broken
    requires var n, b := |l.delivered|, l.buffer + l.pipe[..k];
             b == Encode(ps[n]) && b + (l.pipe[k..] + l.unsent) == Encode(ps[n]) + EncodeAll(ps[n + 1..])
    requires l.clock == ClockAfter(clock, l.delivered)
    ensures Sound(Moved(l, Fetched(k)), ps, clock)
  {
    var n := |l.delivered|;
    ExamineEncoded(ps[n]);
    DeliveredNext(l.delivered, ps[n], clock);
    assert l.delivered + [ps[n]] == ps[..n + 1];
    SameTail(Encode(ps[n]), l.pipe[k..] + l.unsent, EncodeAll(ps[n + 1..]));
    assert [] + (l.pipe[k..] + l.unsent) == l.pipe[k..] + l.unsent;
  }

  lemma FetchingKeeps(l: Line, k: nat, ps: seq<Packet>, clock: int)
    requires AllFit(ps) && Sound(l, ps, clock) && Possible(l, Fetched(k))
    ensures Sound(Moved(l, Fetched(k)), ps, clock)
  {
    var n, b, stream := |l.delivered|, l.buffer + l.pipe[..k], l.buffer + (l.pipe + l.unsent);
    FetchStaysInside(l, k, ps, clock);
    ShiftBytes(l.buffer, l.pipe, k, l.unsent);
    if |b| < |Encode(ps[n])| {
      ExaminePart(ps[n], |b|);
    } else {
      NextFront(stream, ps, n);
      assert b == Encode(ps[n]);
      FrameCompleted(l, k, ps, clock);
    }
  }

  /** Whatever the fragmentation of writes and reads: the frames delivered are a prefix
      of the frames sent, none of the next frame has been swallowed by an earlier one,
      no header is ever refused, and the clock has moved once per delivered frame. */
  lemma {:induction false} FifoRefinement(
      ps: seq<Packet>, clock: int, lines: seq<Line>, chunks: seq<Chunk>, t: nat)
    requires Passage(ps, clock, lines, chunks) && t <= |chunks|
    ensures Sound(lines[t], ps, clock)
  {
    if t == 0 {
      assert ps[0..] == ps && [] + ([] + EncodeAll(ps)) == EncodeAll(ps);
    } else {
      FifoRefinement(ps, clock, lines, chunks, t - 1);
      match chunks[t - 1]
      case Written(k) => WritingKeeps(lines[t - 1], k, ps, clock);
      case Fetched(k) => FetchingKeeps(lines[t - 1], k, ps, clock);
    }
  }

  /** Nothing gets stuck on the way: when no chunk can move any more, everything that
      was sent has been delivered. */
  lemma NothingStuck(ps: seq<Packet>, clock: int, lines: seq<Line>, chunks: seq<Chunk>)
    requires Passage(ps, clock, lines, chunks)
    ensures (forall c :: !Possible(lines[|chunks|], c)) <==> lines[|chunks|].delivered == ps
  {
    var l := lines[|chunks|];
    FifoRefinement(ps, clock, lines, chunks, |chunks|);
    if forall c :: !Possible(l, c) {
      assert !Possible(l, Written(1));
      assert !Possible(l, Fetched(1));
      if l.buffer != [] { PartialAsks(l.buffer, ps, |l.delivered|); }
      assert l.pipe == [] && l.unsent == [];
      EverythingOut(l, ps, clock);
    }
    if l.delivered == ps {
      assert ps[|ps|..] == [];
    }
  }

  lemma EverythingOut(l: Line, ps: seq<Packet>, clock: int)
    requires AllFit(ps) && Sound(l, ps, clock) && l.pipe == [] && l.unsent == []
    ensures l.delivered == ps
  {
    var n := |l.delivered|;
    if n < |ps| { EncodeFirst(ps[n..]); }
  }
}
