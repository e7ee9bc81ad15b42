/** The framing layer refines message queues: as long as a channel carries the encodings
    of frames, receiving from it takes the frames one by one, in order. */
module TransportQueues {
  import opened Wire
  import opened Framing
  import opened Transport

  /** The channel carries `queue`, possibly with the end of it not written yet; the writer
      closes its end only after it has written everything. */
  ghost predicate Carries(i: Input, unsent: Bytes, queue: seq<Packet>) {
    && AllFit(queue) && i.open && Gathering(i.buffer)
    && Stream(i) + unsent == EncodeAll(queue) && (i.gone ==> unsent == [])
  }

  /** Seen from the front of the stream there is one frame of the queue, whole or in part. */
  lemma FrontOfQueue(s: Bytes, unsent: Bytes, queue: seq<Packet>)
    requires AllFit(queue) && queue != [] && s + unsent == EncodeAll(queue)
    ensures var e := Encode(queue[0]);
            if |s| >= |e| then s[..|e|] == e && s[|e|..] + unsent == EncodeAll(queue[1..])
            else s == e[..|s|]
  {
    var e, rest := Encode(queue[0]), EncodeAll(queue[1..]);
    EncodeFirst(queue);
    if |s| >= |e| {
      assert (s + unsent)[..|e|] == s[..|e|] && (e + rest)[..|e|] == e;
      assert (s + unsent)[|e|..] == s[|e|..] + unsent && (e + rest)[|e|..] == rest;
    } else {
      assert (s + unsent)[..|s|] == s && (e + rest)[..|s|] == e[..|s|];
    }
  }

  /** A peer is ready with exactly the head of its queue once that frame has arrived
      completely, idle before, and never broken. */
  lemma JudgedByQueue(i: Input, unsent: Bytes, queue: seq<Packet>)
    requires Carries(i, unsent, queue)
    ensures Judge(i) == if queue != [] && |Stream(i)| >= |Encode(queue[0])| then Ready(queue[0]) else Idle
  {
    var s := Stream(i);
    if queue != [] {
      var e := Encode(queue[0]);
      FrontOfQueue(s, unsent, queue);
      ExamineEncoded(queue[0]);
      if |s| >= |e| {
        SameHeader(e, s);
        assert HasFrame(s) && FirstFrame(s) == e;
      } else {
        ExaminePart(queue[0], |s|);
        PartIsNoFrame(s, unsent, i.gone, queue);
      }
    }
  }

  lemma PartIsNoFrame(s: Bytes, unsent: Bytes, gone: bool, queue: seq<Packet>)
    requires AllFit(queue) && queue != [] && s + unsent == EncodeAll(queue) && |s| < |Encode(queue[0])|
    requires Examine(s).More? && (gone ==> unsent == [])
    ensures !gone && !HasFrame(s)
  {
    EncodeFirst(queue);
    if |s| >= HEADER {
      FrontOfQueue(s, unsent, queue);
      SameHeader(s, Encode(queue[0]));
      HeaderBytes(queue[0], queue[0].payload);
    }
  }

  /** What a successful receive does to the queue: it takes its head, no more. */
  lemma ReceiveTakesHead(i: Input, j: Input, m: Packet, unsent: Bytes, queue: seq<Packet>, clock: int)
    requires Carries(i, unsent, queue) && Answer(Complete, m, i, j, clock, false)
    ensures queue != [] && m == queue[0] && Carries(j, unsent, queue[1..])
  {
    JudgedByQueue(i, unsent, queue);
    var e := Encode(queue[0]);
    FrontOfQueue(Stream(i), unsent, queue);
    ExamineEncoded(queue[0]);
    SameHeader(e, Stream(i));
    assert FirstFrame(Stream(i)) == e;
    assert Stream(j) == (FirstFrame(Stream(i)) + Stream(j))[|e|..];
  }

  /** On such a channel only a clock at its limit or a failed system call is an error, and
      a fruitless attempt leaves the queue alone. */
  lemma ReceiveRarelyFails(i: Input, j: Input, m: Packet, status: Status, unsent: Bytes, queue: seq<Packet>,
                           clock: int, faulty: bool)
    requires Carries(i, unsent, queue) && Answer(status, m, i, j, clock, faulty) && !faulty
    ensures status.Failure? ==> queue != [] && ClockRefuses(clock, queue[0].time)
    ensures status.NotYet? ==> Stream(j) + unsent == EncodeAll(queue)
                               && (queue != [] ==> |Stream(i)| < |Encode(queue[0])|)
  {
    JudgedByQueue(i, unsent, queue);
  }

  /** Writing whole frames appends them to the queue of the other side. */
  lemma WritingExtends(pipes: seq<Bytes>, target: nat, queue: seq<Packet>, p: Packet)
    requires target < |pipes| && AllFit(queue) && Fits(p) && pipes[target] == EncodeAll(queue)
    ensures AllFit(queue + [p]) && Appended(pipes, target, Encode(p))[target] == EncodeAll(queue + [p])
  {
    EncodeNext(queue, p);
  }
}
