/** The FIFO channels of the two systems, as the framing layer provides them: the bytes
    under way stand for a queue of messages, a write appends to it, and a successful
    receive takes its head. */
module SystemChannels {
  import opened Wire
  import opened Framing
  import opened Transport
  import opened TransportQueues
  import opened FrameCodec
  import BankProcess

  /** The packets say these messages, one each. */
  predicate Says<T(==)>(ps: seq<Packet>, ms: seq<T>, read: Packet -> Meaning<T>) {
    |ps| == |ms| && forall k :: 0 <= k < |ps| ==> read(ps[k]) == Means(ms[k])
  }

  /** The channel holds the messages `ms`: what has arrived and what is still to be written
      are together the bytes of packets that say them. */
  ghost predicate Conveys<T>(i: Input, unsent: Bytes, ms: seq<T>, read: Packet -> Meaning<T>) {
    exists ps :: Carries(i, unsent, ps) && Says(ps, ms, read)
  }

  /** The bytes fix the packets. */
  lemma OneQueue(ps: seq<Packet>, qs: seq<Packet>)
    requires AllFit(ps) && AllFit(qs) && EncodeAll(ps) == EncodeAll(qs)
    ensures ps == qs
  {
    assert EncodeAll(ps) + [] == EncodeAll(qs);
    FrontFrames(ps, [], qs);
  }

  /** The bytes fix the messages: a channel holds one queue and no other. */
  lemma OneMeaning<T>(i: Input, unsent: Bytes, ms: seq<T>, ns: seq<T>, read: Packet -> Meaning<T>)
    requires Conveys(i, unsent, ms, read) && Conveys(i, unsent, ns, read)
    ensures ms == ns
  {
    var ps :| Carries(i, unsent, ps) && Says(ps, ms, read);
    var qs :| Carries(i, unsent, qs) && Says(qs, ns, read);
    OneQueue(ps, qs);
    forall k | 0 <= k < |ms| ensures ms[k] == ns[k] { assert read(ps[k]) == Means(ms[k]) == Means(ns[k]); }
  }

  /** A new channel holds nothing. */
  lemma NothingYet<T>(read: Packet -> Meaning<T>)
    ensures Conveys(EMPTY, [], [], read)
  {
    assert Carries(EMPTY, [], []) && Says([], [], read);
  }

  lemma SaysMore<T>(ps: seq<Packet>, ms: seq<T>, p: Packet, m: T, read: Packet -> Meaning<T>)
    requires Says(ps, ms, read) && read(p) == Means(m)
    ensures Says(ps + [p], ms + [m], read)
  {
  }

  /** Writing a frame appends its message, however little of it gets through at once. */
  lemma WritingConveys<T>(i: Input, unsent: Bytes, ms: seq<T>, p: Packet, m: T, read: Packet -> Meaning<T>)
    requires Conveys(i, unsent, ms, read) && !i.gone && Fits(p) && read(p) == Means(m)
    ensures Conveys(i, unsent + Encode(p), ms + [m], read)
  {
    var ps :| Carries(i, unsent, ps) && Says(ps, ms, read);
    EncodeNext(ps, p);
    assert Stream(i) + (unsent + Encode(p)) == (Stream(i) + unsent) + Encode(p);
    SaysMore(ps, ms, p, m, read);
    assert Carries(i, unsent + Encode(p), ps + [p]);
  }

  /** Bytes on their way change nothing. */
  lemma ArrivalConveys<T>(i: Input, bytes: Bytes, unsent: Bytes, ms: seq<T>, read: Packet -> Meaning<T>)
    requires Conveys(i, bytes + unsent, ms, read)
    ensures Conveys(i.(pipe := i.pipe + bytes), unsent, ms, read)
  {
    var j := i.(pipe := i.pipe + bytes);
    var ps :| Carries(i, bytes + unsent, ps) && Says(ps, ms, read);
    assert Stream(j) + unsent == Stream(i) + (bytes + unsent);
    assert Carries(j, unsent, ps);
  }

  /** A successful receive takes the head of the queue, and no more. */
  lemma TakesHead<T>(
      i: Input, j: Input, p: Packet, unsent: Bytes, ms: seq<T>, clock: int, read: Packet -> Meaning<T>)
    requires Conveys(i, unsent, ms, read) && Answer(Complete, p, i, j, clock, false)
    ensures ms != [] && read(p) == Means(ms[0]) && Conveys(j, unsent, ms[1..], read)
  {
    var ps :| Carries(i, unsent, ps) && Says(ps, ms, read);
    ReceiveTakesHead(i, j, p, unsent, ps, clock);
    assert Says(ps[1..], ms[1..], read);
  }

  /** A receive finds nothing only while the head has not arrived as a whole; the queue
      is as before.  (An end the peer has closed for good may be closed; then the queue
      is empty.) */
  lemma FindsNothing<T>(
      i: Input, j: Input, p: Packet, unsent: Bytes, ms: seq<T>, clock: int, read: Packet -> Meaning<T>)
    requires Conveys(i, unsent, ms, read) && Answer(NotYet, p, i, j, clock, false)
    requires j.open ==> Gathering(j.buffer)
    ensures if j.open then Conveys(j, unsent, ms, read) else ms == []
    ensures ms != [] ==> unsent != []
  {
    var ps :| Carries(i, unsent, ps) && Says(ps, ms, read);
    JudgedByQueue(i, unsent, ps);
    if ps != [] { EncodeFirst(ps); }
    assert j.open ==> Carries(j, unsent, ps);
  }

  /** On a channel that works, a receive fails only for the stamp of the head, or for a
      clock at its limit. */
  lemma FailsAtHead<T>(
      i: Input, j: Input, p: Packet, unsent: Bytes, ms: seq<T>, clock: int, read: Packet -> Meaning<T>)
    returns (head: Packet)
    requires Conveys(i, unsent, ms, read) && Answer(Failure, p, i, j, clock, false)
    ensures ms != [] && read(head) == Means(ms[0]) && ClockRefuses(clock, head.time)
  {
    var ps :| Carries(i, unsent, ps) && Says(ps, ms, read);
    ReceiveRarelyFails(i, j, p, Failure, unsent, ps, clock, false);
    head := ps[0];
  }

  // ---------- the channels of the mutual exclusion ----------

  /** Sending a message of the mutual exclusion. */
  lemma MessageSent(i: Input, unsent: Bytes, ms: seq<Msg>, m: Msg, text: Bytes)
    requires Conveys(i, unsent, ms, MsgOf) && !i.gone
    requires INT16_MIN <= m.ts <= INT16_MAX && |text| == m.size <= MAX_PAYLOAD
    ensures Conveys(i, unsent + Encode(PacketOf(m, text)), ms + [m], MsgOf)
  {
    var p := PacketOf(m, text);
    MsgBack(m, p);
    WritingConveys(i, unsent, ms, p, m, MsgOf);
  }

  /** Receiving one: what it is, what is left, and when it is refused. */
  lemma MessageReceived(i: Input, j: Input, p: Packet, status: Status, unsent: Bytes, ms: seq<Msg>, clock: int)
    requires Conveys(i, unsent, ms, MsgOf) && Answer(status, p, i, j, clock, false)
    requires status.NotYet? && j.open ==> Gathering(j.buffer)
    ensures status.Complete? ==> ms != [] && MsgOf(p) == Means(ms[0]) && Conveys(j, unsent, ms[1..], MsgOf)
    ensures status.NotYet? ==>
              (if j.open then Conveys(j, unsent, ms, MsgOf) else ms == []) && (ms != [] ==> unsent != [])
    ensures status.Failure? ==> ms != [] && ClockRefuses(clock, ms[0].ts)
  {
    match status
    case Complete => TakesHead(i, j, p, unsent, ms, clock, MsgOf);
    case NotYet => FindsNothing(i, j, p, unsent, ms, clock, MsgOf);
    case Failure => var head := FailsAtHead(i, j, p, unsent, ms, clock, MsgOf);
  }

  // ---------- the channels of the bank ----------

  lemma FrameSent(i: Input, unsent: Bytes, fs: seq<BankProcess.Frame>, f: BankProcess.Frame, text: Bytes)
    requires Conveys(i, unsent, fs, Abstract) && !i.gone && Sendable(f, text)
    ensures Fits(Concrete(f, text)) && Conveys(i, unsent + Encode(Concrete(f, text)), fs + [f], Abstract)
  {
    FrameBack(f, text);
    WritingConveys(i, unsent, fs, Concrete(f, text), f, Abstract);
  }

  lemma FrameReceived(
      i: Input, j: Input, p: Packet, status: Status, unsent: Bytes, fs: seq<BankProcess.Frame>, clock: int)
    requires Conveys(i, unsent, fs, Abstract) && Answer(status, p, i, j, clock, false)
    requires status.NotYet? && j.open ==> Gathering(j.buffer)
    ensures status.Complete? ==> fs != [] && Abstract(p) == Means(fs[0]) && Conveys(j, unsent, fs[1..], Abstract)
    ensures status.NotYet? ==>
              (if j.open then Conveys(j, unsent, fs, Abstract) else fs == []) && (fs != [] ==> unsent != [])
    ensures status.Failure? ==> fs != [] && ClockRefuses(clock, fs[0].ts)
  {
    match status
    case Complete => TakesHead(i, j, p, unsent, fs, clock, Abstract);
    case NotYet => FindsNothing(i, j, p, unsent, fs, clock, Abstract);
    case Failure => var head := FailsAtHead(i, j, p, unsent, fs, clock, Abstract);
  }
}
