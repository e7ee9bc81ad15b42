/** The framing layer of one process: a decoder per peer that gathers a frame from
    arbitrary reads, the round-robin search for a ready peer, and writing in arbitrary
    chunks.  What the system calls do is drawn from two arbitrary finite lists. */
module Transport {
  import opened Wire
  import opened Framing
  import opened RoundRobin

  datatype ReadCall = UpTo(size: nat) | ReadInterrupted | ReadFault

  datatype WriteCall = Accepts(size: nat) | PipeFull | WriteInterrupted | WriteFault

  datatype ReadResult = Got(count: nat) | EndOfFile | WouldBlock | Retry | ReadFailed

  datatype Status = Complete | NotYet | Failure

  datatype SendResult = Sent | Refused | Overflow | WriteFailed

  /** One peer as seen by the reader: own end open, other end closed for good, decoder
      buffer, bytes waiting in the pipe. */
  datatype Input = Input(open: bool, gone: bool, buffer: Bytes, pipe: Bytes)

  const EMPTY: Input := Input(true, false, [], [])

  /** There is no channel from a process to itself. */
  const NO_CHANNEL: Input := Input(false, false, [], [])

  function Stream(i: Input): Bytes { i.buffer + i.pipe }

  /** What the bytes of a peer call for. */
  datatype Verdict = Idle | Broken | Ready(packet: Packet)

  predicate HasFrame(s: Bytes) {
    |s| >= HEADER && GoodHeader(s) && |s| >= HEADER + Field(s, 2)
  }

  function FirstFrame(s: Bytes): (b: Bytes)
    requires HasFrame(s)
    ensures Examine(b).Whole? && b <= s
  {
    s[..HEADER + Field(s, 2)]
  }

  function Judge(i: Input): Verdict {
    var s := Stream(i);
    if !i.open then Idle
    else if |s| >= HEADER && !GoodHeader(s) then Broken
    else if HasFrame(s) then Ready(Examine(FirstFrame(s)).packet)
    else if i.gone && s != [] then Broken
    else Idle
  }

  /** Nothing will ever come from this peer again. */
  predicate Over(i: Input) { i.gone && Stream(i) == [] }

  /** The same peer after a fruitless attempt: bytes may have moved into the buffer, and our
      end is closed exactly if the peer is gone for good and nothing is left to read. */
  predicate Tried(i: Input, j: Input) {
    Stream(j) == Stream(i) && j.gone == i.gone && (j.open <==> i.open && !Over(i))
  }

  /** The same peer, whether it has been tried or not. */
  predicate Undisturbed(i: Input, j: Input) {
    && Stream(j) == Stream(i) && j.gone == i.gone
    && (j.open == i.open || (i.open && Over(i)))
  }

  lemma UndisturbedVerdict(i: Input, j: Input)
    requires Undisturbed(i, j)
    ensures Judge(j) == Judge(i)
  {
  }

  /** Buffers never reach beyond the end of the frame they started. */
  predicate WithinFrame(b: Bytes) {
    |b| >= HEADER && GoodHeader(b) ==> |b| <= HEADER + Field(b, 2)
  }

  predicate Gathering(b: Bytes) { Examine(b).More? && WithinFrame(b) }

  lemma SameHeader(b: Bytes, s: Bytes)
    requires HEADER <= |b| && b <= s
    ensures GoodHeader(b) == GoodHeader(s) && Field(b, 2) == Field(s, 2)
  {
    assert forall k :: 0 <= k < HEADER ==> b[k] == s[k];
  }

  /** A buffer that has grown to the end of its frame holds exactly the first frame. */
  lemma WholeFrame(b: Bytes, pipe: Bytes)
    requires |b| >= HEADER && GoodHeader(b) && |b| == HEADER + Field(b, 2)
    ensures HasFrame(b + pipe) && FirstFrame(b + pipe) == b && Examine(b).Whole?
  {
    SameHeader(b, b + pipe);
  }

  class Endpoint {
    const id: nat
    const children: nat
    var clock: int
    var sender: nat
    var cursor: nat
    /** The decoders: a message buffer for every peer and how much of it is filled. */
    const frame: array2<Byte>
    const used: array<nat>
    const readable: array<bool>
    const gone: array<bool>
    const incoming: array<Bytes>
    /** Everything the pipe to each process has accepted. */
    const outgoing: array<Bytes>
    var readCalls: seq<ReadCall>
    var writeCalls: seq<WriteCall>
    ghost var Inputs: seq<Input>

    ghost predicate Shape()
      reads this`Inputs, this`cursor
    {
      && children >= 1 && id <= children && cursor <= children
      && frame.Length0 == used.Length == readable.Length == gone.Length == children + 1
      && incoming.Length == outgoing.Length == |Inputs| == children + 1
      && frame.Length1 == MAX_MESSAGE && readable != gone && incoming != outgoing
    }

    ghost predicate Holds(a: nat, i: Input)
      reads this`Inputs, this`cursor, frame, used, readable, gone, incoming
      requires Shape() && a <= children
    {
      && readable[a] == i.open && gone[a] == i.gone && incoming[a] == i.pipe
      && used[a] == |i.buffer| <= MAX_MESSAGE
      && forall t :: 0 <= t < |i.buffer| ==> i.buffer[t] == frame[a, t]
    }

    ghost predicate Linked()
      reads this`Inputs, this`cursor, frame, used, readable, gone, incoming
    {
      Shape() && forall a :: 0 <= a <= children ==> Holds(a, Inputs[a])
    }

    /** Between calls every open decoder is waiting for more of its frame, and only peers
        that are through have been closed. */
    ghost predicate Valid()
      reads this`Inputs, this`cursor, frame, used, readable, gone, incoming
    {
      && Linked()
      && (forall a :: 0 <= a <= children ==> Inputs[a].open ==> Gathering(Inputs[a].buffer))
      && (forall a :: 0 <= a <= children ==>
            (a == id ==> !Inputs[a].open) && (a != id && !Inputs[a].open ==> Over(Inputs[a])))
    }

    /** All channels open and empty. */
    constructor (id: nat, children: nat, readCalls: seq<ReadCall>, writeCalls: seq<WriteCall>)
      requires children >= 1 && id <= children
      ensures Valid() && this.id == id && this.children == children && clock == 0 && cursor == 0
      ensures forall a :: 0 <= a <= children ==>
                Inputs[a] == (if a == id then NO_CHANNEL else EMPTY) && outgoing[a] == []
    {
      this.id, this.children, this.readCalls, this.writeCalls := id, children, readCalls, writeCalls;
      clock, sender, cursor := 0, 0, 0;
      frame := new Byte[children + 1, MAX_MESSAGE];
      used := new nat[children + 1](_ => 0);
      readable := new bool[children + 1](a => a != id);
      gone := new bool[children + 1](_ => false);
      incoming := new Bytes[children + 1](_ => []);
      outgoing := new Bytes[children + 1](_ => []);
      Inputs := seq(children + 1, a => if a == id then NO_CHANNEL else EMPTY);
      new;
      assert Shape();
      forall a | 0 <= a <= children ensures Holds(a, Inputs[a]) && Gathering(Inputs[a].buffer) {
        assert readable[a] == (a != id) && !gone[a] && incoming[a] == [] && used[a] == 0;
      }
    }

    /** The other side has written some more, or has gone for good. */
    method Arrive(from: nat, bytes: Bytes, over: bool)
      requires Valid() && IsPeer(from) && !Inputs[from].gone
      modifies this`Inputs, incoming, gone
      ensures Valid()
      ensures Inputs == old(Inputs)[from := old(Inputs[from]).(pipe := old(Inputs[from]).pipe + bytes, gone := over)]
    {
      assert Holds(from, Inputs[from]);
      ghost var i := Inputs[from];
      incoming[from] := incoming[from] + bytes;
      gone[from] := over;
      Inputs := Inputs[from := i.(pipe := i.pipe + bytes, gone := over)];
      forall a | 0 <= a <= children ensures Holds(a, Inputs[a]) { assert old(Holds(a, Inputs[a])); }
    }

    // ---------- reading ----------

    /** One read of at most `limit` bytes into the buffer of `from`. */
    method Read(from: nat, limit: nat) returns (r: ReadResult)
      requires Linked() && from <= children && limit >= 1 && |Inputs[from].buffer| + limit <= MAX_MESSAGE
      modifies this`readCalls, this`Inputs, frame, used, incoming
      ensures Linked()
      ensures var i := old(Inputs[from]);
        match r
        case Got(k) =>
          1 <= k <= limit && k <= |i.pipe| && |readCalls| <= old(|readCalls|)
          && Inputs == old(Inputs)[from := i.(buffer := i.buffer + i.pipe[..k], pipe := i.pipe[k..])]
        case EndOfFile => i.pipe == [] && i.gone && Inputs == old(Inputs)
        case WouldBlock => i.pipe == [] && !i.gone && Inputs == old(Inputs)
        case Retry => |readCalls| < old(|readCalls|) && Inputs == old(Inputs)
        case ReadFailed => ReadFault in old(readCalls) && Inputs == old(Inputs)
      ensures ReadFault in readCalls ==> ReadFault in old(readCalls)
    {
      assert Holds(from, Inputs[from]);
      var size := limit;
      if readCalls != [] {
        var call := readCalls[0];
        assert call in readCalls;
        readCalls := readCalls[1..];
        match call {
          case ReadInterrupted => return Retry;
          case ReadFault => return ReadFailed;
          case UpTo(k) => size := if k == 0 then 1 else if k < limit then k else limit;
        }
      }
      if incoming[from] == [] { return if gone[from] then EndOfFile else WouldBlock; }
      if size > |incoming[from]| { size := |incoming[from]|; }
      Take(from, size);
      r := Got(size);
    }

    method Take(from: nat, size: nat)
      requires Linked() && from <= children && size <= |incoming[from]| && used[from] + size <= MAX_MESSAGE
      modifies this`Inputs, frame, used, incoming
      ensures Linked()
      ensures var i := old(Inputs[from]);
              Inputs == old(Inputs)[from := i.(buffer := i.buffer + i.pipe[..size], pipe := i.pipe[size..])]
    {
      ghost var i := Inputs[from];
      assert Holds(from, i);
      var start, bytes := used[from], incoming[from];
      forall k | 0 <= k < size { frame[from, start + k] := bytes[k]; }
      used[from] := start + size;
      incoming[from] := bytes[size..];
      Inputs := Inputs[from := i.(buffer := i.buffer + i.pipe[..size], pipe := i.pipe[size..])];
      forall a | 0 <= a <= children ensures Holds(a, Inputs[a]) {
        if a != from { assert old(Holds(a, Inputs[a])); }
      }
    }

    /** Two header bytes of a buffer. */
    method HeaderField(from: nat, at: nat) returns (x: int)
      requires Linked() && from <= children && at + 1 < |Inputs[from].buffer|
      ensures x == Field(Inputs[from].buffer, at)
    {
      assert Holds(from, Inputs[from]);
      var low: int, high: int := frame[from, at], frame[from, at + 1];
      x := low + 256 * high;
    }

    method ClockReceive(remote: int) returns (ok: bool)
      modifies this`clock
      ensures ok == !(remote < 0 || remote == 32767 || old(clock) == 32767)
      ensures clock == if ok then (if remote > old(clock) then remote else old(clock)) + 1 else old(clock)
    {
      if remote < 0 || remote == INT16_MAX || clock == INT16_MAX { return false; }
      if remote > clock { clock := remote; }
      clock := clock + 1;
      ok := true;
    }

    /** Copy a complete frame out of the buffer of `from` and empty it. */
    method Deliver(from: nat) returns (m: Packet)
      requires Linked() && from <= children && Examine(Inputs[from].buffer).Whole?
      modifies this`Inputs, used
      ensures Linked() && m == Examine(old(Inputs[from]).buffer).packet
      ensures Inputs == old(Inputs)[from := old(Inputs[from]).(buffer := [])]
    {
      ghost var b := Inputs[from].buffer;
      var size, kind, time;
      size := HeaderField(from, 2);
      kind := HeaderField(from, 4);
      time := HeaderField(from, 6);
      assert Holds(from, Inputs[from]);
      var payload := seq(size, k requires 0 <= k < size reads frame => frame[from, HEADER + k]);
      m := Packet(Signed(kind), Signed(time), payload);
      assert payload == b[HEADER..];
      used[from] := 0;
      Inputs := Inputs[from := Inputs[from].(buffer := [])];
      forall a | 0 <= a <= children ensures Holds(a, Inputs[a]) {
        if a != from { assert old(Holds(a, Inputs[a])); }
      }
    }

    /** Our end of a channel whose writer is gone is closed. */
    method Close(from: nat)
      requires Linked() && from <= children
      modifies this`Inputs, readable
      ensures Linked() && Inputs == old(Inputs)[from := old(Inputs[from]).(open := false)]
    {
      readable[from] := false;
      Inputs := Inputs[from := Inputs[from].(open := false)];
      forall a | 0 <= a <= children ensures Holds(a, Inputs[a]) { assert old(Holds(a, Inputs[a])); }
    }

    /** The complete frame of `from` becomes an event. */
    method Finish(from: nat) returns (status: Status, m: Packet)
      requires Linked() && from <= children && Examine(Inputs[from].buffer).Whole?
      modifies this`clock, this`sender, this`Inputs, used
      ensures Linked() && m == Examine(old(Inputs[from]).buffer).packet
      ensures Inputs == old(Inputs)[from := old(Inputs[from]).(buffer := [])]
      ensures status == if ClockRefuses(old(clock), m.time) then Failure else Complete
      ensures clock == if status.Complete? then Later(old(clock), m.time) else old(clock)
      ensures sender == from
    {
      m := Deliver(from);
      sender := from;
      var ok := ClockReceive(m.time);
      status := if ok then Complete else Failure;
    }

    /** A peer is one of the other processes. */
    predicate IsPeer(from: nat) { from <= children && from != id }

    /** The loop of `Receive`: read until the frame is complete or no more can be read. */
    method Gather(from: nat) returns (r: Gathered)
      requires Valid() && from <= children && Inputs[from].open
      modifies this`readCalls, this`Inputs, frame, used, incoming
      ensures Linked() && Inputs == old(Inputs)[from := Inputs[from]]
      ensures Regathered(old(Inputs[from]), Inputs[from])
      ensures Reached(r, Inputs[from], ReadFault in old(readCalls))
      ensures ReadFault in readCalls ==> ReadFault in old(readCalls)
    {
      ghost var i := Inputs[from];
      while true
        invariant Linked() && Inputs == old(Inputs)[from := Inputs[from]]
        invariant Regathered(i, Inputs[from]) && WithinFrame(Inputs[from].buffer)
        invariant ReadFault in readCalls ==> ReadFault in old(readCalls)
        decreases |readCalls| + |Inputs[from].pipe|
      {
        ghost var b, pipe := Inputs[from].buffer, Inputs[from].pipe;
        assert Holds(from, Inputs[from]);
        var needed := HEADER;
        if used[from] >= needed {
          var magic := HeaderField(from, 0);
          var size := HeaderField(from, 2);
          if magic != MAGIC || size > MAX_PAYLOAD { return Spoiled; }
          needed := needed + size;
          if used[from] == needed { return Filled; }
        }
        var call := Read(from, needed - used[from]);
        match call {
          case Got(k) => GrowthFits(b, pipe, k, needed);
          case Retry =>
          case ReadFailed => return Faulted;
          case WouldBlock => return Stalled;
          case EndOfFile => return Ended;
        }
      }
    }

    /** Every decoder but that of `from` is at rest. */
    ghost predicate OthersAtRest(from: nat)
      reads this`Inputs
      requires |Inputs| == children + 1
    {
      forall a :: 0 <= a <= children && a != from ==>
        && (Inputs[a].open ==> a != id && Gathering(Inputs[a].buffer))
        && (a != id && !Inputs[a].open ==> Over(Inputs[a]))
    }

    /** The end of `Receive`: what the bytes read amount to. */
    method Conclude(from: nat, r: Gathered, ghost i: Input, ghost faulty: bool) returns (status: Status, m: Packet)
      requires Linked() && IsPeer(from) && OthersAtRest(from)
      requires Regathered(i, Inputs[from]) && Reached(r, Inputs[from], faulty)
      modifies this`clock, this`sender, this`Inputs, used, readable
      ensures Linked() && (!status.Failure? ==> Valid())
      ensures Inputs == old(Inputs)[from := Inputs[from]]
      ensures Answer(status, m, i, Inputs[from], old(clock), faulty)
      ensures clock == if status.Complete? then Later(old(clock), m.time) else old(clock)
      ensures !status.Failure? ==> sender == if status.Complete? then from else old(sender)
    {
      ghost var j := Inputs[from];
      assert Holds(from, j);
      status, m := Failure, Packet(0, 0, []);
      match r {
        case Filled =>
          FilledAnswers(i, j);
          status, m := Finish(from);
        case Spoiled =>
          SpoiledAnswers(i, j);
          assert Lost(i, j, clock);
        case Stalled =>
          StalledAnswers(i, j);
          status := NotYet;
        case Ended =>
          EndedAnswers(i, j);
          if used[from] == 0 { status := NotYet; }
          Close(from);
        case Faulted =>
      }
    }

    /** The next frame of one peer, if it is there.  Failure stands for a malformed or cut
        off frame, a failed read, a refused stamp or an impossible peer. */
    method Receive(from: nat) returns (status: Status, m: Packet)
      requires Valid()
      modifies this`clock, this`sender, this`readCalls, this`Inputs, frame, used, incoming, readable
      ensures Linked() && (!status.Failure? ==> Valid())
      ensures !IsPeer(from) ==> status.Failure? && Inputs == old(Inputs)
      ensures IsPeer(from) ==> Inputs == old(Inputs)[from := Inputs[from]]
      ensures IsPeer(from) ==>
                Answer(status, m, old(Inputs[from]), Inputs[from], old(clock), ReadFault in old(readCalls))
      ensures IsPeer(from) && status.NotYet? ==>
                (Inputs[from].open <==>
                 old(Inputs[from]).open && !(old(Inputs[from]).gone && Stream(old(Inputs[from])) == []))
      ensures clock == if status.Complete? then Later(old(clock), m.time) else old(clock)
      ensures !status.Failure? ==> sender == if status.Complete? then from else old(sender)
      ensures ReadFault in readCalls ==> ReadFault in old(readCalls)
    {
      if from > children || from == id { return Failure, Packet(0, 0, []); }
      assert Holds(from, Inputs[from]);
      if !readable[from] { return NotYet, Packet(0, 0, []); }
      ghost var i, faulty := Inputs[from], ReadFault in readCalls;
      var r := Gather(from);
      status, m := Conclude(from, r, i, faulty);
    }

    /** One turn of the search: move the cursor on and try the peer it was at. */
    method TryNext(ghost all: seq<Input>, ghost start: nat, ghost scanned: nat, ghost faulty: bool)
      returns (status: Status, m: Packet)
      requires Valid() && InSearch(all, Inputs, id, start, cursor, scanned) && scanned <= children
      requires ReadFault in readCalls ==> faulty
      modifies this`clock, this`sender, this`readCalls, this`Inputs, this`cursor, frame, used, incoming, readable
      ensures Linked() && (!status.Failure? ==> Valid())
      ensures if status.NotYet? then InSearch(all, Inputs, id, start, cursor, scanned + 1) && sender == old(sender)
              else Served(status, m, all, Inputs, id, start, cursor, sender, old(sender), old(clock), faulty)
      ensures clock == if status.Complete? then Later(old(clock), m.time) else old(clock)
      ensures ReadFault in readCalls ==> faulty
    {
      var peer := cursor;
      ghost var before := Inputs;
      cursor := Next(cursor, children + 1);
      if peer == id {
        OwnSkipped(all, before, id, start, peer, scanned + 1);
        return NotYet, Packet(0, 0, []);
      }
      status, m := Receive(peer);
      PeerAnswers(status, m, all, before, Inputs, id, start, peer, scanned + 1, sender, old(clock), old(sender),
                  faulty);
    }

    /** The next frame of any peer: one round of the cursor. */
    method ReceiveAny() returns (status: Status, m: Packet)
      requires Valid()
      modifies this`clock, this`sender, this`readCalls, this`Inputs, this`cursor, frame, used, incoming, readable
      ensures Linked() && (!status.Failure? ==> Valid())
      ensures Served(status, m, old(Inputs), Inputs, id, old(cursor), cursor, sender, old(sender), old(clock),
                     old(ReadFault in readCalls))
      ensures status.NotYet? ==>
                forall a: nat :: IsPeer(a) ==>
                  && Inputs[a].gone == old(Inputs[a]).gone && Stream(Inputs[a]) == Stream(old(Inputs[a]))
                  && (Inputs[a].open <==> old(Inputs[a]).open && !(Inputs[a].gone && Stream(Inputs[a]) == []))
      ensures clock == if status.Complete? then Later(old(clock), m.time) else old(clock)
      ensures ReadFault in readCalls ==> ReadFault in old(readCalls)
    {
      ghost var all, start, faulty := Inputs, cursor, ReadFault in readCalls;
      for scanned := 0 to children + 1
        invariant Valid() && clock == old(clock) && sender == old(sender)
        invariant InSearch(all, Inputs, id, start, cursor, scanned)
        invariant ReadFault in readCalls ==> faulty
      {
        status, m := TryNext(all, start, scanned, faulty);
        if !status.NotYet? { return; }
      }
      status, m := NotYet, Packet(0, 0, []);
      NobodyAnswers(m, all, Inputs, id, start, cursor, sender, clock, faulty);
      EverybodyTried(all, Inputs, id, start);
    }

    // ---------- waiting ----------

    /** What arrives during a pause; a peer that has gone brings no more. */
    method ArriveAll(batch: seq<Arrival>)
      requires Valid()
      modifies this`Inputs, incoming, gone
      ensures Valid()
    {
      for k := 0 to |batch|
        invariant Valid()
      {
        var Arrival(from, bytes, over) := batch[k];
        if from <= children && from != id && !gone[from] {
          assert Holds(from, Inputs[from]);
          Arrive(from, bytes, over);
        }
      }
    }

    /** Whether any peer can still send something. */
    method AnyOpen() returns (b: bool)
      requires Valid()
      ensures b <==> exists a: nat :: IsPeer(a) && Inputs[a].open
    {
      var open := 0;
      for peer := 0 to children + 1
        invariant open > 0 <==> exists a: nat :: a < peer && IsPeer(a) && Inputs[a].open
      {
        assert Holds(peer, Inputs[peer]);
        if readable[peer] {
          open := open + 1;
          assert IsPeer(peer);
        }
      }
      b := open > 0;
    }

    /** Search again and again until a frame is there, or until nobody is left who could
        send one; `pauses` is what arrives between two searches.  `last` and `start` are the
        peers and the cursor before the last search. */
    method AwaitAny(pauses: seq<seq<Arrival>>)
      returns (r: Waited, m: Packet, ghost last: seq<Input>, ghost start: nat)
      requires Valid()
      modifies this`clock, this`sender, this`readCalls, this`Inputs, this`cursor
      modifies frame, used, incoming, readable, gone
      ensures Linked() && (!r.Failed? ==> Valid()) && |last| == |Inputs| && start < |last|
      ensures r.Heard? || r.Failed? ==>
                Served(if r.Heard? then Complete else Failure, m, last, Inputs, id, start, cursor, sender,
                       old(sender), old(clock), ReadFault in old(readCalls))
      ensures r.NobodyLeft? ==> AllOver() && forall a: nat :: IsPeer(a) ==> !Inputs[a].open
      ensures r.StillWaiting? ==> !AllOver()
      ensures old(AllOver()) && ReadFault !in old(readCalls) ==> r.NobodyLeft?
      ensures clock == if r.Heard? then Later(old(clock), m.time) else old(clock)
    {
      last, start := Inputs, cursor;
      r, m := AwaitRound();
      var k := 0;
      while r.StillWaiting? && k < |pauses|
        invariant k <= |pauses| && Linked() && (!r.Failed? ==> Valid()) && |last| == |Inputs| && start < |last|
        invariant r.Heard? || r.Failed? ==>
                    Served(if r.Heard? then Complete else Failure, m, last, Inputs, id, start, cursor, sender,
                           old(sender), old(clock), ReadFault in old(readCalls))
        invariant r.NobodyLeft? ==> AllOver() && forall a: nat :: IsPeer(a) ==> !Inputs[a].open
        invariant r.StillWaiting? ==> !AllOver() && sender == old(sender)
        invariant old(AllOver()) && ReadFault !in old(readCalls) ==> r.NobodyLeft?
        invariant clock == if r.Heard? then Later(old(clock), m.time) else old(clock)
        invariant ReadFault in readCalls ==> ReadFault in old(readCalls)
      {
        ArriveAll(pauses[k]);
        k := k + 1;
        last, start := Inputs, cursor;
        r, m := AwaitRound();
      }
    }

    /** Wait for a frame of one peer and nobody else; NobodyLeft if it has gone. */
    method AwaitMessage(from: nat, pauses: seq<seq<Arrival>>) returns (r: Waited, m: Packet, ghost last: Input)
      requires Valid() && IsPeer(from)
      modifies this`clock, this`sender, this`readCalls, this`Inputs, frame, used, incoming, readable, gone
      ensures Linked() && (!r.Failed? ==> Valid())
      ensures r.Heard? || r.Failed? ==>
                Answer(if r.Heard? then Complete else Failure, m, last, Inputs[from], old(clock),
                       ReadFault in old(readCalls))
      ensures r.NobodyLeft? <==> !r.Heard? && !r.Failed? && Over(Inputs[from])
      ensures r.NobodyLeft? ==> !Inputs[from].open
      ensures r.Heard? ==> sender == from && clock == Later(old(clock), m.time)
      ensures !r.Heard? ==> clock == old(clock)
    {
      last := Inputs[from];
      r, m := AwaitOnce(from);
      var k := 0;
      while r.StillWaiting? && k < |pauses|
        invariant k <= |pauses| && Linked() && (!r.Failed? ==> Valid())
        invariant r.Heard? || r.Failed? ==>
                    Answer(if r.Heard? then Complete else Failure, m, last, Inputs[from], old(clock),
                           ReadFault in old(readCalls))
        invariant r.NobodyLeft? <==> !r.Heard? && !r.Failed? && Over(Inputs[from])
        invariant r.NobodyLeft? ==> !Inputs[from].open
        invariant r.Heard? ==> sender == from && clock == Later(old(clock), m.time)
        invariant !r.Heard? ==> clock == old(clock)
        invariant ReadFault in readCalls ==> ReadFault in old(readCalls)
      {
        ArriveAll(pauses[k]);
        k := k + 1;
        last := Inputs[from];
        r, m := AwaitOnce(from);
      }
    }

    method AwaitOnce(from: nat) returns (r: Waited, m: Packet)
      requires Valid() && IsPeer(from)
      modifies this`clock, this`sender, this`readCalls, this`Inputs, frame, used, incoming, readable
      ensures Linked() && (!r.Failed? ==> Valid())
      ensures r.Heard? || r.Failed? ==>
                Answer(if r.Heard? then Complete else Failure, m, old(Inputs[from]), Inputs[from], old(clock),
                       ReadFault in old(readCalls))
      ensures r.NobodyLeft? <==> !r.Heard? && !r.Failed? && Over(Inputs[from])
      ensures r.NobodyLeft? ==> !Inputs[from].open
      ensures r.Heard? ==> sender == from
      ensures clock == if r.Heard? then Later(old(clock), m.time) else old(clock)
      ensures ReadFault in readCalls ==> ReadFault in old(readCalls)
    {
      var status;
      status, m := Receive(from);
      assert Holds(from, Inputs[from]);
      if status.Complete? { return Heard, m; }
      if status.Failure? { return Failed, m; }
      r := if readable[from] then StillWaiting else NobodyLeft;
    }

    /** One search, and a look at who is left. */
    method AwaitRound() returns (r: Waited, m: Packet)
      requires Valid()
      modifies this`clock, this`sender, this`readCalls, this`Inputs, this`cursor, frame, used, incoming, readable
      ensures Linked() && (!r.Failed? ==> Valid())
      ensures r.Heard? || r.Failed? ==>
                Served(if r.Heard? then Complete else Failure, m, old(Inputs), Inputs, id, old(cursor), cursor, sender,
                       old(sender), old(clock), ReadFault in old(readCalls))
      ensures r.NobodyLeft? ==> AllOver() && forall a: nat :: IsPeer(a) ==> !Inputs[a].open
      ensures r.StillWaiting? ==> !AllOver()
      ensures old(AllOver()) && ReadFault !in old(readCalls) ==> r.NobodyLeft?
      ensures clock == if r.Heard? then Later(old(clock), m.time) else old(clock)
      ensures r.NobodyLeft? || r.StillWaiting? ==> sender == old(sender)
      ensures ReadFault in readCalls ==> ReadFault in old(readCalls)
    {
      ghost var all, from, lastSender, before := Inputs, cursor, sender, clock;
      ghost var nobody, faulty := AllOver(), ReadFault in readCalls;
      var status;
      status, m := ReceiveAny();
      if nobody && !faulty {
        NobodyCalls(status, m, all, Inputs, id, from, cursor, sender, lastSender, before);
      }
      if status.Complete? { return Heard, m; }
      if status.Failure? { return Failed, m; }
      var open := AnyOpen();
      r := if open then StillWaiting else NobodyLeft;
    }

    /** No peer will ever send anything again. */
    ghost predicate AllOver()
      reads this`Inputs
    {
      |Inputs| == children + 1 && forall a: nat :: IsPeer(a) ==> Over(Inputs[a])
    }

    // ---------- writing ----------

    /** Write `bytes` to the pipe of `target`, in whatever chunks it takes. */
    method WriteFrame(target: nat, bytes: Bytes) returns (ok: bool)
      requires target < outgoing.Length
      modifies this`writeCalls, outgoing
      ensures ok ==> outgoing[..] == Appended(old(outgoing[..]), target, bytes)
      ensures !ok ==> WriteFault in old(writeCalls)
      ensures !ok ==> Partly(old(outgoing[..]), target, bytes, outgoing[..])
      ensures WriteFault in writeCalls ==> WriteFault in old(writeCalls)
    {
      ghost var before := outgoing[..];
      AppendedChunks(before, target, bytes, 0, 0);
      var offset := 0;
      while offset < |bytes|
        invariant 0 <= offset <= |bytes| && outgoing[..] == Appended(before, target, bytes[..offset])
        invariant WriteFault in writeCalls ==> WriteFault in old(writeCalls)
        decreases |writeCalls| + |bytes| - offset
      {
        var size := |bytes| - offset;
        if writeCalls != [] {
          var call := writeCalls[0];
          assert call in writeCalls;
          writeCalls := writeCalls[1..];
          match call {
            case WriteInterrupted => continue;
            case PipeFull => continue;
            case WriteFault => return false;
            case Accepts(k) => size := if k == 0 then 1 else if k < size then k else size;
          }
        }
        ghost var now := outgoing[..];
        outgoing[target] := outgoing[target] + bytes[offset..offset + size];
        assert outgoing[..] == Appended(now, target, bytes[offset..offset + size]);
        AppendedChunks(before, target, bytes, offset, size);
        offset := offset + size;
      }
      assert bytes[..offset] == bytes;
      ok := true;
    }

    method ClockSend() returns (ok: bool)
      modifies this`clock
      ensures ok == (old(clock) != 32767)
      ensures clock == if ok then old(clock) + 1 else old(clock)
    {
      if clock == INT16_MAX { return false; }
      clock := clock + 1;
      ok := true;
    }

    /** One frame to one process, stamped with the moved clock. */
    method Send(dst: nat, kind: int, payload: Bytes) returns (r: SendResult)
      requires Shape() && -32768 <= kind <= 32767 && -32768 <= clock <= 32767
      modifies this`clock, this`writeCalls, outgoing
      ensures r.Refused? <==> !IsPeer(dst) || |payload| > 4088
      ensures r.Overflow? <==> IsPeer(dst) && |payload| <= 4088 && old(clock) == 32767
      ensures r.Refused? || r.Overflow? ==> clock == old(clock) && outgoing[..] == old(outgoing[..])
      ensures r.WriteFailed? ==> WriteFault in old(writeCalls)
      ensures r.Sent? || r.WriteFailed? ==> clock == old(clock) + 1
      ensures r.WriteFailed? ==> Partly(old(outgoing[..]), dst, Encode(Packet(kind, clock, payload)), outgoing[..])
      ensures r.Sent? ==>
                outgoing[..] == Appended(old(outgoing[..]), dst, Encode(Packet(kind, clock, payload)))
    {
      if dst > children || dst == id || |payload| > MAX_PAYLOAD { return Refused; }
      var ok := ClockSend();
      if !ok { return Overflow; }
      ok := WriteFrame(dst, Encode(Packet(kind, clock, payload)));
      r := if ok then Sent else WriteFailed;
    }

    /** One stamp and one frame for all processes from `first` on, one after the other;
        the first failed write ends it. */
    method Multicast(kind: int, payload: Bytes, first: nat) returns (r: SendResult)
      requires Shape() && -32768 <= kind <= 32767 && -32768 <= clock <= 32767
      requires first <= 1
      modifies this`clock, this`writeCalls, outgoing
      ensures r.Refused? <==> |payload| > 4088
      ensures r.Overflow? <==> |payload| <= 4088 && old(clock) == 32767
      ensures r.Refused? || r.Overflow? ==> clock == old(clock) && outgoing[..] == old(outgoing[..])
      ensures r.WriteFailed? ==> WriteFault in old(writeCalls)
      ensures r.Sent? || r.WriteFailed? ==> clock == old(clock) + 1
      ensures r.WriteFailed? ==>
                BrokenOff(old(outgoing[..]), Encode(Packet(kind, clock, payload)), id, first, outgoing[..])
      ensures r.Sent? ==>
                outgoing[..]
                == SpreadOver(old(outgoing[..]), Encode(Packet(kind, clock, payload)), id, first, children + 1)
    {
      if |payload| > MAX_PAYLOAD { return Refused; }
      var ok := ClockSend();
      if !ok { return Overflow; }
      ok := WriteAll(Encode(Packet(kind, clock, payload)), first);
      r := if ok then Sent else WriteFailed;
    }

    /** The loop over the targets from `first` on, the own id left out. */
    method WriteAll(bytes: Bytes, first: nat) returns (ok: bool)
      requires Shape() && first <= 1
      modifies this`writeCalls, outgoing
      ensures ok ==> outgoing[..] == SpreadOver(old(outgoing[..]), bytes, id, first, children + 1)
      ensures !ok ==> WriteFault in old(writeCalls) && BrokenOff(old(outgoing[..]), bytes, id, first, outgoing[..])
    {
      ghost var before := outgoing[..];
      var target := first;
      while target <= children
        invariant first <= target <= children + 1
        invariant outgoing[..] == SpreadOver(before, bytes, id, first, target)
        invariant WriteFault in writeCalls ==> WriteFault in old(writeCalls)
      {
        SpreadNext(before, bytes, id, first, target);
        if target != id {
          ok := WriteFrame(target, bytes);
          if !ok { return; }
        }
        target := target + 1;
      }
      ok := true;
    }
  }

  /** Some bytes of a peer, and whether it goes for good. */
  datatype Arrival = Arrival(from: nat, bytes: Bytes, over: bool)

  datatype Waited = Heard | StillWaiting | NobodyLeft | Failed

  function Appended(pipes: seq<Bytes>, target: nat, bytes: Bytes): seq<Bytes>
    requires target < |pipes|
  {
    pipes[target := pipes[target] + bytes]
  }

  /** A proper part of the bytes has been appended. */
  ghost predicate Partly(pipes: seq<Bytes>, target: nat, bytes: Bytes, later: seq<Bytes>) {
    exists k :: target < |pipes| && 0 <= k < |bytes| && later == Appended(pipes, target, bytes[..k])
  }

  /** The targets before some other one have the whole frame, that one a proper part. */
  ghost predicate BrokenOff(pipes: seq<Bytes>, bytes: Bytes, own: nat, first: nat, later: seq<Bytes>) {
    exists target: nat ::
      first <= target && target != own && Partly(SpreadOver(pipes, bytes, own, first, target), target, bytes, later)
  }

  lemma AppendedChunks(pipes: seq<Bytes>, target: nat, bytes: Bytes, offset: nat, size: nat)
    requires target < |pipes| && offset + size <= |bytes|
    ensures Appended(Appended(pipes, target, bytes[..offset]), target, bytes[offset..offset + size])
            == Appended(pipes, target, bytes[..offset + size])
    ensures Appended(pipes, target, bytes[..0]) == pipes
  {
    assert bytes[..offset] + bytes[offset..offset + size] == bytes[..offset + size];
    assert (pipes[target] + bytes[..offset]) + bytes[offset..offset + size] == pipes[target] + bytes[..offset + size];
    assert pipes[target] + bytes[..0] == pipes[target];
  }

  /** The same bytes appended to the pipes first..last-1, the own one left out. */
  function SpreadOver(pipes: seq<Bytes>, bytes: Bytes, own: nat, first: nat, last: nat): (r: seq<Bytes>)
    ensures |r| == |pipes|
    ensures forall a :: 0 <= a < |pipes| ==>
              r[a] == if first <= a < last && a != own then pipes[a] + bytes else pipes[a]
  {
    seq(|pipes|, a requires 0 <= a < |pipes| =>
      if first <= a < last && a != own then pipes[a] + bytes else pipes[a])
  }

  lemma SpreadNext(pipes: seq<Bytes>, bytes: Bytes, own: nat, first: nat, target: nat)
    requires first <= target < |pipes|
    ensures var r := SpreadOver(pipes, bytes, own, first, target);
            SpreadOver(pipes, bytes, own, first, target + 1) == if target == own then r else Appended(r, target, bytes)
  {
  }

  function Readies(inputs: seq<Input>): (r: seq<bool>)
    ensures |r| == |inputs|
    ensures forall a :: 0 <= a < |inputs| ==> r[a] == !Judge(inputs[a]).Idle?
  {
    seq(|inputs|, a requires 0 <= a < |inputs| => !Judge(inputs[a]).Idle?)
  }

  predicate UndisturbedExcept(all: seq<Input>, later: seq<Input>, peer: nat)
    requires |all| == |later|
  {
    forall a :: 0 <= a < |all| && a != peer ==> Undisturbed(all[a], later[a])
  }

  /** The search has tried the first `scanned` ids from `start` on, and touched no other. */
  predicate TriedFirst(all: seq<Input>, later: seq<Input>, own: nat, start: nat, scanned: nat) {
    && |all| == |later| && start < |all|
    && forall a :: 0 <= a < |all| ==>
         if a != own && Distance(start, a, |all|) < scanned then Tried(all[a], later[a]) else later[a] == all[a]
  }

  lemma EverybodyTried(all: seq<Input>, later: seq<Input>, own: nat, start: nat)
    requires TriedFirst(all, later, own, start, |all|)
    ensures forall a :: 0 <= a < |all| && a != own ==> Tried(all[a], later[a])
  {
    forall a | 0 <= a < |all| && a != own ensures Tried(all[a], later[a]) {
      assert Distance(start, a, |all|) < |all|;
    }
  }

  /** The search has come to `peer`: those before it have been tried, those behind it not. */
  predicate CameTo(all: seq<Input>, later: seq<Input>, own: nat, start: nat, peer: nat) {
    && |all| == |later| && start < |all| && peer < |all| && peer != own
    && TriedFirst(all, later[peer := all[peer]], own, start, Distance(start, peer, |all|))
  }

  lemma CameToLeavesOthers(all: seq<Input>, later: seq<Input>, own: nat, start: nat, peer: nat)
    requires CameTo(all, later, own, start, peer)
    ensures UndisturbedExcept(all, later, peer)
  {
    forall a | 0 <= a < |all| && a != peer ensures Undisturbed(all[a], later[a]) {
      assert later[peer := all[peer]][a] == later[a];
    }
  }

  /** The answer comes from the first peer, counted from the cursor, that calls for one. */
  predicate Served(status: Status, m: Packet, all: seq<Input>, later: seq<Input>, own: nat, from: nat, to: nat,
                   sender: nat, lastSender: nat, before: int, faulty: bool)
    requires |all| == |later| && from < |all|
  {
    var chosen := Scan(Readies(all), own, from, |all|);
    match status
    case Complete =>
      && chosen == Peer(sender) && to == Next(sender, |all|)
      && Answer(status, m, all[sender], later[sender], before, false)
      && CameTo(all, later, own, from, sender)
    case NotYet =>
      chosen.Nobody? && to == from && sender == lastSender && TriedFirst(all, later, own, from, |all|)
    case Failure =>
      exists peer :: 0 <= peer < |all|
        && CameTo(all, later, own, from, peer) && to == Next(peer, |all|)
        && Answer(status, m, all[peer], later[peer], before, faulty)
        && (chosen == Peer(peer) || faulty)
  }

  predicate InSearch(all: seq<Input>, later: seq<Input>, own: nat, start: nat, cursor: nat, scanned: nat) {
    TriedFirst(all, later, own, start, scanned) && Searching(Readies(all), own, start, cursor, scanned)
  }

  lemma OwnSkipped(all: seq<Input>, before: seq<Input>, own: nat, start: nat, peer: nat, scanned: nat)
    requires scanned >= 1 && InSearch(all, before, own, start, peer, scanned - 1) && scanned <= |all| && peer == own
    ensures InSearch(all, before, own, start, Next(peer, |all|), scanned)
  {
    SearchOn(Readies(all), own, start, peer, scanned - 1);
    DistanceGoesOn(start, peer, |all|, scanned - 1);
  }

  /** The id at the cursor is the one that many places from the start. */
  lemma DistanceGoesOn(start: nat, cursor: nat, count: nat, scanned: nat)
    requires start < count && cursor < count && scanned < count
    requires cursor == if start + scanned < count then start + scanned else start + scanned - count
    ensures Distance(start, cursor, count) == scanned
    ensures forall a: nat :: a < count && Distance(start, a, count) < scanned + 1 ==>
              a == cursor || Distance(start, a, count) < scanned
  {
  }

  lemma NobodyAnswers(m: Packet, all: seq<Input>, later: seq<Input>, own: nat, start: nat, cursor: nat,
                      sender: nat, clock: int, faulty: bool)
    requires InSearch(all, later, own, start, cursor, |all|)
    ensures Served(NotYet, m, all, later, own, start, cursor, sender, sender, clock, faulty)
  {
  }

  /** The peer at the cursor answers: the search goes on behind it, or it is the one. */
  lemma PeerAnswers(status: Status, m: Packet, all: seq<Input>, before: seq<Input>, later: seq<Input>,
                    own: nat, start: nat, peer: nat, scanned: nat,
                    sender: nat, oldClock: int, oldSender: nat, faulty: bool)
    requires scanned >= 1 && InSearch(all, before, own, start, peer, scanned - 1) && scanned <= |all| && peer != own
    requires |later| == |all| && later == before[peer := later[peer]]
    requires Answer(status, m, before[peer], later[peer], oldClock, faulty)
    requires status.Complete? ==> sender == peer
    ensures status.NotYet? ==> InSearch(all, later, own, start, Next(peer, |all|), scanned)
    ensures !status.NotYet? ==>
              Served(status, m, all, later, own, start, Next(peer, |all|), sender, oldSender, oldClock, faulty)
  {
    SearchOn(Readies(all), own, start, peer, scanned - 1);
    DistanceGoesOn(start, peer, |all|, scanned - 1);
    assert before[peer] == all[peer];
    assert later[peer := all[peer]] == before;
    if status.Failure? { assert CameTo(all, later, own, start, peer); }
  }

  lemma NobodyCalls(status: Status, m: Packet, all: seq<Input>, later: seq<Input>, own: nat, from: nat, to: nat,
                    sender: nat, lastSender: nat, before: int)
    requires |all| == |later| && from < |all|
    requires Served(status, m, all, later, own, from, to, sender, lastSender, before, false)
    requires forall a :: 0 <= a < |all| && a != own ==> Over(all[a])
    ensures status.NotYet?
  {
  }

  /** Bytes have moved from the pipe into the buffer, and nothing else has happened. */
  predicate Regathered(i: Input, j: Input) {
    j.open && i.open && j.gone == i.gone && Stream(j) == Stream(i)
  }

  datatype Gathered = Filled | Spoiled | Stalled | Ended | Faulted

  predicate Short(b: Bytes) {
    |b| < HEADER || (GoodHeader(b) && |b| < HEADER + Field(b, 2))
  }

  predicate Reached(r: Gathered, j: Input, faulty: bool) {
    match r
    case Filled => |j.buffer| >= HEADER && GoodHeader(j.buffer) && |j.buffer| == HEADER + Field(j.buffer, 2)
    case Spoiled => |j.buffer| >= HEADER && !GoodHeader(j.buffer)
    case Stalled => j.pipe == [] && !j.gone && Short(j.buffer)
    case Ended => j.pipe == [] && j.gone && Short(j.buffer)
    case Faulted => faulty
  }

  /** What is left of a peer's bytes once its first frame has been delivered: not a
      single byte more has gone. */
  predicate Cut(i: Input, j: Input) {
    && HasFrame(Stream(i)) && FirstFrame(Stream(i)) + Stream(j) == Stream(i)
    && j.buffer == [] && j.open && j.gone == i.gone
  }

  /** What an attempt to receive says about a peer, and what it does to its bytes. */
  predicate Answer(status: Status, m: Packet, i: Input, j: Input, clock: int, faulty: bool) {
    match status
    case Complete => Judge(i) == Ready(m) && Cut(i, j) && !ClockRefuses(clock, m.time)
    case NotYet => Judge(i).Idle? && Tried(i, j)
    case Failure => Lost(i, j, clock) || (faulty && i.open && j.open && j.gone == i.gone && Stream(j) == Stream(i))
  }

  /** A failure of the peer's own: its stream is broken, and our end is closed if it broke
      off inside a frame, but not for a bad header; or its frame is there, but the clock
      refuses it. */
  predicate Lost(i: Input, j: Input, clock: int) {
    match Judge(i)
    case Idle => false
    case Broken =>
      Stream(j) == Stream(i) && j.gone == i.gone
      && (j.open <==> |Stream(i)| >= HEADER && !GoodHeader(Stream(i)))
    case Ready(p) => ClockRefuses(clock, p.time) && Cut(i, j)
  }

  lemma GrowthFits(b: Bytes, pipe: Bytes, k: nat, needed: nat)
    requires k <= |pipe| && |b| + k <= needed
    requires needed == if |b| >= HEADER then HEADER + Field(b, 2) else HEADER
    requires |b| >= HEADER ==> GoodHeader(b)
    ensures WithinFrame(b + pipe[..k]) && (b + pipe[..k]) + pipe[k..] == b + pipe
  {
    if |b| >= HEADER { SameHeader(b, b + pipe[..k]); }
  }

  lemma FilledAnswers(i: Input, j: Input)
    requires Regathered(i, j) && Reached(Filled, j, false)
    ensures Examine(j.buffer).Whole? && Judge(i) == Ready(Examine(j.buffer).packet) && Cut(i, j.(buffer := []))
  {
    WholeFrame(j.buffer, j.pipe);
    assert [] + j.pipe == j.pipe;
  }

  lemma SpoiledAnswers(i: Input, j: Input)
    requires Regathered(i, j) && Reached(Spoiled, j, false)
    ensures Lost(i, j, 0)
  {
    SameHeader(j.buffer, Stream(j));
  }

  /** A buffer short of its frame, with nothing behind it, holds no frame. */
  lemma StalledAnswers(i: Input, j: Input)
    requires Regathered(i, j) && Reached(Stalled, j, false)
    ensures Judge(i).Idle? && Tried(i, j) && Gathering(j.buffer)
  {
    assert j.buffer + [] == j.buffer;
  }

  /** End of file between frames is no failure, inside a frame it is. */
  lemma EndedAnswers(i: Input, j: Input)
    requires Regathered(i, j) && Reached(Ended, j, false)
    ensures if j.buffer == [] then Judge(i).Idle? && Tried(i, j.(open := false)) && Over(j)
            else Judge(i).Broken? && Lost(i, j.(open := false), 0)
  {
    assert j.buffer + [] == j.buffer;
  }
}
