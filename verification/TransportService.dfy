/** Round-robin service seen from the byte streams: a peer with one complete frame is
    heard before long, whatever the others send meanwhile. */
module TransportService {
  import opened Framing
  import opened RoundRobin
  import opened Transport

  /** Between two calls the other side may write some more and may go for good; what has
      been read so far, and our own end of the channel, stay as they are. */
  predicate Arrives(i: Input, j: Input) {
    && j.open == i.open && j.buffer == i.buffer && i.pipe <= j.pipe
    && (i.gone ==> j == i)
  }

  /** Exactly what an arrival at an endpoint does to a peer. */
  lemma ArrivalsAre(i: Input, j: Input)
    requires !i.gone
    ensures Arrives(i, j) <==> exists bytes, over :: j == i.(pipe := i.pipe + bytes, gone := over)
  {
    if Arrives(i, j) { assert j == i.(pipe := i.pipe + j.pipe[|i.pipe|..], gone := j.gone); }
  }

  /** Later bytes do not change what the first frame is. */
  lemma ArrivalKeepsReady(i: Input, j: Input)
    requires Arrives(i, j) && Judge(i).Ready?
    ensures Judge(j) == Judge(i)
  {
    assert Stream(j) == Stream(i) + j.pipe[|i.pipe|..];
    SameHeader(Stream(i), Stream(j));
    assert FirstFrame(Stream(j)) == FirstFrame(Stream(i));
  }

  /** One successful search for a frame of any peer, as class Endpoint performs it. */
  datatype Call = Call(before: seq<Input>, after: seq<Input>, start: nat, stop: nat, sender: nat, m: Packet, clock: int)

  predicate Succeeds(c: Call, own: nat) {
    && |c.after| == |c.before| && c.start < |c.before| && own < |c.before|
    && Served(Complete, c.m, c.before, c.after, own, c.start, c.stop, c.sender, c.sender, c.clock, false)
  }

  /** The next call finds the cursor where this one left it; meanwhile frames arrive. */
  predicate Follows(c: Call, d: Call) {
    && d.start == c.stop && |d.before| == |c.after|
    && forall a :: 0 <= a < |c.after| ==> Arrives(c.after[a], d.before[a])
  }

  predicate Calls(calls: seq<Call>, own: nat) {
    && (forall k: nat :: k < |calls| ==> Succeeds(calls[k], own))
    && forall k: nat :: k + 1 < |calls| ==> Follows(calls[k], calls[k + 1])
  }

  /** A call either delivers the frame that is waiting or leaves it waiting, with the cursor
      closer to it. */
  lemma CallApproaches(c: Call, own: nat, peer: nat, m: Packet)
    requires Succeeds(c, own) && peer < |c.before| && peer != own && Judge(c.before[peer]) == Ready(m)
    ensures c.stop < |c.before|
    ensures if c.sender == peer then c.m == m
            else Judge(c.after[peer]) == Ready(m)
                 && Ahead(c.stop, peer, own, |c.before|) < Ahead(c.start, peer, own, |c.before|)
  {
    ScanApproaches(Readies(c.before), own, c.start, |c.before|, peer);
    CameToLeavesOthers(c.before, c.after, own, c.start, c.sender);
    if c.sender != peer {
      assert Undisturbed(c.before[peer], c.after[peer]);
      UndisturbedVerdict(c.before[peer], c.after[peer]);
    }
  }

  /** From call `x` on. */
  lemma {:induction false} ServedBehind(calls: seq<Call>, own: nat, peer: nat, m: Packet, x: nat) returns (k: nat)
    requires Calls(calls, own) && x < |calls| && peer < |calls[x].before| && peer != own
    requires Succeeds(calls[x], own) && Judge(calls[x].before[peer]) == Ready(m)
    requires x + Ahead(calls[x].start, peer, own, |calls[x].before|) < |calls|
    ensures k <= x + Ahead(calls[x].start, peer, own, |calls[x].before|) && k < |calls|
    ensures calls[k].sender == peer && calls[k].m == m
    decreases |calls| - x
  {
    CallApproaches(calls[x], own, peer, m);
    if calls[x].sender == peer {
      k := x;
    } else {
      assert Follows(calls[x], calls[x + 1]) && Succeeds(calls[x + 1], own);
      ArrivalKeepsReady(calls[x].after[peer], calls[x + 1].before[peer]);
      k := ServedBehind(calls, own, peer, m, x + 1);
    }
  }

  /** A peer that has one complete frame is delivered, with exactly that frame, within as
      many successful searches as there are other processes, wherever the cursor stands,
      whatever arrives from whom in between. */
  lemma ServedInTime(calls: seq<Call>, own: nat, peer: nat, m: Packet)
    requires Calls(calls, own) && calls != [] && |calls| >= |calls[0].before| - 1
    requires peer < |calls[0].before| && peer != own && Judge(calls[0].before[peer]) == Ready(m)
    ensures exists k: nat :: k < |calls| && k < |calls[0].before| - 1 && calls[k].sender == peer && calls[k].m == m
  {
    assert Succeeds(calls[0], own);
    AheadBounded(calls[0].start, peer, own, |calls[0].before|);
    var k := ServedBehind(calls, own, peer, m, 0);
  }
}
