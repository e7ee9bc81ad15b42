/** What one child and one of its peers know about each other.
    A link is a channel together with the frame its sender is still writing to it.
    PairInv ties the contents of the two links between a requester and a peer to
    the flags both sides keep; each lemma shows one kind of step keeps it. */
module MutexPair {
  import opened Wire

  /** The requester's own variables, then the peer's record of the requester. */
  datatype View = View(
    booted: bool, requesting: bool, replied: bool, ts: int, rounds: nat, finished: bool, clock: int,
    seenStarted: bool, seenDone: bool, queued: bool, seenTs: int, peerClock: int)

  /** Kinds of the frames of a link that are not replies. */
  function Work(f: seq<Msg>): seq<Kind> {
    if f == [] then [] else (if f[0].kind.CS_REPLY? then [] else [f[0].kind]) + Work(f[1..])
  }

  function Replies(f: seq<Msg>): nat {
    if f == [] then 0 else (if f[0].kind.CS_REPLY? then 1 else 0) + Replies(f[1..])
  }

  lemma {:induction false} WorkAppend(f: seq<Msg>, m: Msg)
    ensures Work(f + [m]) == Work(f) + (if m.kind.CS_REPLY? then [] else [m.kind])
    ensures Replies(f + [m]) == Replies(f) + (if m.kind.CS_REPLY? then 1 else 0)
  {
    if f == [] {
      assert f + [m] == [m];
    } else {
      assert (f + [m])[1..] == f[1..] + [m];
      WorkAppend(f[1..], m);
    }
  }

  lemma {:induction false} KindsPresent(f: seq<Msg>)
    ensures |f| == |Work(f)| + Replies(f)
    ensures forall m :: m in f && !m.kind.CS_REPLY? ==> m.kind in Work(f)
    ensures (exists m :: m in f && m.kind.CS_REPLY?) ==> Replies(f) > 0
    ensures forall kind :: kind in Work(f) ==> kind != CS_REPLY && exists m :: m in f && m.kind == kind
  {
    if f != [] {
      KindsPresent(f[1..]);
      assert f == [f[0]] + f[1..];
    }
  }

  lemma WorkPop(f: seq<Msg>)
    requires f != []
    ensures f[0].kind.CS_REPLY? ==> Work(f[1..]) == Work(f) && Replies(f[1..]) + 1 == Replies(f)
    ensures !f[0].kind.CS_REPLY? ==>
              Work(f) != [] && Work(f)[0] == f[0].kind && Work(f[1..]) == Work(f)[1..] && Replies(f[1..]) == Replies(f)
  {
  }

  predicate Rising(f: seq<Msg>, top: int) {
    && (forall x, y :: 0 <= x < y < |f| ==> f[x].ts < f[y].ts)
    && (forall x :: 0 <= x < |f| ==> f[x].ts <= top)
  }

  /** The peer has answered the current request, received or not. */
  predicate Answered(v: View, r: seq<Msg>) {
    v.replied || Replies(r) > 0
  }

  function RequestPart(v: View, answered: bool): seq<Kind> {
    if v.requesting then
      (if answered then [] else if v.queued then [CS_RELEASE, CS_REQUEST] else [CS_REQUEST])
    else
      (if v.queued then [CS_RELEASE] else [])
  }

  /** The frames, replies aside, that the requester must have under way. */
  function Expected(v: View, answered: bool): seq<Kind> {
    (if v.booted && !v.seenStarted then [STARTED] else [])
    + RequestPart(v, answered)
    + (if v.finished && !v.seenDone then [DONE] else [])
  }

  predicate FlagsAgree(v: View) {
    && (v.seenStarted ==> v.booted)
    && (v.requesting ==> v.booted && v.ts <= v.clock)
    && (v.queued ==> v.seenStarted)
    && (v.rounds > 0 ==> v.seenStarted)
    && (v.finished ==> !v.requesting && v.rounds > 0)
    && (v.seenDone ==> v.finished && !v.queued)
  }

  predicate StampsAgree(v: View, f: seq<Msg>, r: seq<Msg>) {
    && Rising(f, v.clock)
    && (forall m :: m in f ==> (m.kind.CS_REQUEST? ==> m.ts == v.ts) && (IsCs(m.kind) ==> m.size == 0))
    && (forall m :: m in r ==> (m.kind.CS_REPLY? || (v.requesting && v.replied) ==> m.ts > v.ts))
  }

  /** `f` is the link from the requester to the peer, `r` the link back. */
  predicate PairInv(v: View, f: seq<Msg>, r: seq<Msg>) {
    && FlagsAgree(v)
    && StampsAgree(v, f, r)
    && Work(f) == Expected(v, Answered(v, r))
    && Replies(r) <= 1
    && (Replies(r) > 0 ==> v.requesting && !v.replied)
    && (v.requesting && Answered(v, r) ==> v.queued && v.seenTs == v.ts && v.peerClock > v.ts)
  }

  lemma RisingAppend(f: seq<Msg>, top: int, m: Msg)
    requires Rising(f, top) && m.ts > top
    ensures Rising(f + [m], m.ts)
  {
  }

  // ---------- the requester moves ----------

  lemma RequesterStarts(v: View, f: seq<Msg>, r: seq<Msg>, m: Msg)
    requires PairInv(v, f, r) && !v.booted && m.kind.STARTED? && m.ts == v.clock + 1
    ensures PairInv(v.(booted := true, clock := m.ts), f + [m], r)
  {
    WorkAppend(f, m);
    RisingAppend(f, v.clock, m);
  }

  lemma RequesterRequests(v: View, f: seq<Msg>, r: seq<Msg>, m: Msg)
    requires PairInv(v, f, r) && v.booted && !v.requesting && !v.finished
    requires m == Msg(CS_REQUEST, v.clock + 1, 0)
    ensures PairInv(v.(requesting := true, replied := false, ts := m.ts, clock := m.ts), f + [m], r)
  {
    WorkAppend(f, m);
    RisingAppend(f, v.clock, m);
    KindsPresent(f);
    KindsPresent(r);
    assert CS_REQUEST !in Work(f);
  }

  lemma RequesterReleases(v: View, f: seq<Msg>, r: seq<Msg>, m: Msg)
    requires PairInv(v, f, r) && v.requesting && v.replied
    requires m == Msg(CS_RELEASE, v.clock + 1, 0)
    ensures PairInv(v.(requesting := false, rounds := v.rounds + 1, clock := m.ts), f + [m], r)
  {
    WorkAppend(f, m);
    RisingAppend(f, v.clock, m);
  }

  lemma RequesterFinishes(v: View, f: seq<Msg>, r: seq<Msg>, m: Msg)
    requires PairInv(v, f, r) && !v.requesting && !v.finished && v.rounds > 0
    requires m.kind.DONE? && m.ts == v.clock + 1
    ensures PairInv(v.(finished := true, clock := m.ts), f + [m], r)
  {
    var w := v.(finished := true, clock := m.ts);
    WorkAppend(f, m);
    RisingAppend(f, v.clock, m);
    assert Expected(w, Answered(w, r)) == Expected(v, Answered(v, r)) + [DONE];
  }

  /** A frame from the peer that is not a reply. */
  lemma RequesterReceives(v: View, f: seq<Msg>, r: seq<Msg>, clock: int)
    requires PairInv(v, f, r) && r != [] && !r[0].kind.CS_REPLY? && clock >= v.clock
    ensures PairInv(v.(clock := clock), f, r[1..])
  {
    WorkPop(r);
  }

  lemma RequesterReceivesReply(v: View, f: seq<Msg>, r: seq<Msg>, top: int, clock: int)
    requires PairInv(v, f, r) && r != [] && r[0].kind.CS_REPLY? && clock >= v.clock
    requires Rising(r, top)
    ensures v.requesting && !v.replied
    ensures PairInv(v.(replied := true, clock := clock), f, r[1..])
  {
    WorkPop(r);
    forall m | m in r[1..] ensures m.ts > v.ts {
      assert r[0] in r;
    }
  }

  /** The requester answers the peer's own request. */
  lemma RequesterReplies(v: View, f: seq<Msg>, r: seq<Msg>, m: Msg)
    requires PairInv(v, f, r) && m.kind.CS_REPLY? && m.size == 0 && m.ts > v.clock
    ensures PairInv(v.(clock := m.ts), f + [m], r)
  {
    WorkAppend(f, m);
    RisingAppend(f, v.clock, m);
  }

  // ---------- the peer moves ----------

  /** The peer puts a frame of its own on the link back. */
  lemma PeerSends(v: View, f: seq<Msg>, r: seq<Msg>, m: Msg)
    requires PairInv(v, f, r) && !m.kind.CS_REPLY? && m.ts > v.peerClock
    ensures PairInv(v.(peerClock := m.ts), f, r + [m])
  {
    WorkAppend(r, m);
  }

  lemma PeerReceivesStarted(v: View, f: seq<Msg>, r: seq<Msg>, clock: int)
    requires PairInv(v, f, r) && f != [] && f[0].kind.STARTED? && clock >= v.peerClock
    ensures PairInv(v.(seenStarted := true, peerClock := clock), f[1..], r)
  {
    WorkPop(f);
    KindsPresent(f);
    assert Work(f[1..]) == Expected(v, Answered(v, r))[1..];
  }

  lemma PeerReceivesDone(v: View, f: seq<Msg>, r: seq<Msg>, clock: int)
    requires PairInv(v, f, r) && f != [] && f[0].kind.DONE? && clock >= v.peerClock
    ensures !v.queued
    ensures PairInv(v.(seenDone := true, peerClock := clock), f[1..], r)
  {
    WorkPop(f);
  }

  lemma PeerReceivesRelease(v: View, f: seq<Msg>, r: seq<Msg>, clock: int)
    requires PairInv(v, f, r) && f != [] && f[0].kind.CS_RELEASE? && clock >= v.peerClock
    ensures v.queued && f[0].size == 0
    ensures PairInv(v.(queued := false, peerClock := clock), f[1..], r)
  {
    WorkPop(f);
  }

  lemma PeerReceivesReply(v: View, f: seq<Msg>, r: seq<Msg>, clock: int)
    requires PairInv(v, f, r) && f != [] && f[0].kind.CS_REPLY? && clock >= v.peerClock
    ensures f[0].size == 0
    ensures PairInv(v.(peerClock := clock), f[1..], r)
  {
    WorkPop(f);
  }

  /** The peer takes in the request and answers it at once. */
  lemma PeerReceivesRequest(v: View, f: seq<Msg>, r: seq<Msg>, m: Msg)
    requires PairInv(v, f, r) && f != [] && f[0].kind.CS_REQUEST?
    requires m.kind.CS_REPLY? && m.ts > v.peerClock && m.ts > f[0].ts
    ensures !v.queued && !v.seenDone && f[0].size == 0
    ensures PairInv(v.(queued := true, seenTs := f[0].ts, peerClock := m.ts), f[1..], r + [m])
  {
    var w := v.(queued := true, seenTs := f[0].ts, peerClock := m.ts);
    WorkPop(f);
    WorkAppend(r, m);
    assert f[0] in f;
    assert StampsAgree(w, f[1..], r + [m]) by {
      assert forall x :: x in f[1..] ==> x in f;
      assert forall x :: x in r + [m] ==> x in r || x == m;
    }
    assert v.requesting && !Answered(v, r);
    assert Work(f[1..]) == Expected(w, true);
  }

  /** Whatever arrives at the peer passes the checks of dispatch; `u` is the view
      with the roles exchanged. */
  lemma HeadAccepted(v: View, u: View, f: seq<Msg>, r: seq<Msg>)
    requires PairInv(v, f, r) && PairInv(u, r, f) && f != []
    ensures f[0].kind in {STARTED, DONE, CS_REQUEST, CS_REPLY, CS_RELEASE}
    ensures IsCs(f[0].kind) ==> f[0].size == 0
    ensures f[0].kind.DONE? ==> !v.queued
    ensures f[0].kind.CS_REQUEST? ==> !v.queued && !v.seenDone
    ensures f[0].kind.CS_REPLY? ==> u.requesting
    ensures f[0].kind.CS_RELEASE? ==> v.queued
  {
    WorkPop(f);
  }
}
