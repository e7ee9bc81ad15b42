/** The inductive invariant of the mutual-exclusion system, and the proof that
    every step keeps it. */
module MutexInvariant {
  import opened Wire
  import opened MutexProcess
  import opened MutexSystem
  import opened MutexPair

  /** The frame `p` has still to write to `j`, if any. */
  function Unsent(p: Proc, j: nat): seq<Msg> {
    if p.out.Sending? && p.out.next <= j <= p.out.last && j != p.id then [p.out.frame] else []
  }

  function Link(g: Global, i: nat, j: nat): seq<Msg>
    requires i < |g.procs| && i < |g.chan| && j < |g.chan[i]|
  {
    g.chan[i][j] + Unsent(g.procs[i], j)
  }

  predicate HasFinished(p: Proc) {
    p.pc.AwaitDone? || p.pc.Exited?
  }

  function ViewOf(a: Proc, b: Proc): View
    requires Shaped(a) && Shaped(b) && a.n == b.n
  {
    View(!a.pc.Boot?, a.requesting, a.replied[b.id], a.stamp[a.id], a.rounds, HasFinished(a), a.clock,
         b.started[a.id], b.done[a.id], b.queued[a.id], b.stamp[a.id], b.clock)
  }

  predicate BarriersPassed(p: Proc)
    requires Shaped(p)
  {
    && (!p.pc.Boot? && !p.pc.AwaitStarted? ==> AllMarked(p, p.started))
    && (p.pc.Exited? ==> AllMarked(p, p.done) && p.out.Quiet?)
  }

  predicate ChildInv(p: Proc)
    requires Shaped(p)
  {
    && !p.pc.Failed?
    && p.clock >= 0
    && p.rounds <= Rounds(p)
    && (p.pc.Boot? || p.pc.AwaitStarted? ==> p.rounds == 0)
    && (p.requesting ==> p.rounds < Rounds(p) && p.stamp[p.id] <= p.clock)
    && (HasFinished(p) ==> p.rounds == Rounds(p))
    && p.requesting == (p.pc.AwaitCs? || p.pc.InCs?) == p.queued[p.id]
    && p.inside == p.pc.InCs?
    && (p.pc.InCs? ==> forall peer :: 1 <= peer <= p.n && peer != p.id ==> p.replied[peer])
    && (p.out.Sending? && IsCs(p.out.frame.kind) ==> p.out.next >= 1)
    && BarriersPassed(p)
  }

  predicate ParentInv(p: Proc)
    requires Shaped(p)
  {
    && (p.pc.AwaitStarted? || HasFinished(p))
    && p.clock >= 0 && p.rounds == 0 && p.out.Quiet? && !p.requesting && !p.inside
    && (forall i :: 0 <= i <= p.n ==> !p.queued[i])
    && BarriersPassed(p)
  }

  /** Frames under way from a child to the parent. */
  function ForParent(booted: bool, seenStarted: bool, finished: bool, seenDone: bool): seq<Kind> {
    (if booted && !seenStarted then [STARTED] else []) + (if finished && !seenDone then [DONE] else [])
  }

  predicate ParentLink(a: Proc, b: Proc, f: seq<Msg>)
    requires Shaped(a) && Shaped(b) && a.n == b.n
  {
    && Work(f) == ForParent(!a.pc.Boot?, b.started[a.id], HasFinished(a), b.done[a.id])
    && Replies(f) == 0
    && (b.started[a.id] ==> !a.pc.Boot?)
    && (b.done[a.id] ==> HasFinished(a))
  }

  ghost predicate PairAt(g: Global, i: nat, j: nat)
    requires Formed(g) && i <= g.n && j <= g.n
  {
    PairInv(ViewOf(g.procs[i], g.procs[j]), Link(g, i, j), Link(g, j, i))
  }

  ghost predicate ParentAt(g: Global, i: nat)
    requires Formed(g) && i <= g.n
  {
    && ParentLink(g.procs[i], g.procs[0], Link(g, i, 0))
    && Link(g, 0, i) == []
  }

  ghost predicate Inv(g: Global) {
    && Formed(g)
    && ParentInv(g.procs[0])
    && (forall i :: 1 <= i <= g.n ==> ChildInv(g.procs[i]))
    && (forall i :: 1 <= i <= g.n ==> ParentAt(g, i))
    && (forall i, j :: 1 <= i <= g.n && 1 <= j <= g.n && i != j ==> PairAt(g, i, j))
  }

  lemma InitInv(n: nat)
    requires n >= 1
    ensures Inv(Initial(n))
  {
    var g := Initial(n);
    assert Formed(g);
    forall i | 1 <= i <= n ensures ParentAt(g, i) && ChildInv(g.procs[i]) {
      assert Link(g, i, 0) == [] && Link(g, 0, i) == [];
    }
    forall i, j | 1 <= i <= n && 1 <= j <= n && i != j ensures PairAt(g, i, j) {
      assert Link(g, i, j) == [] && Link(g, j, i) == [];
      assert ViewOf(g.procs[i], g.procs[j]) ==
             View(false, false, false, 0, 0, false, 0, false, false, false, 0, 0);
    }
  }

  // ---------- how a step moves the links ----------

  ghost predicate Pair(g: Global, i: int, j: int) { 1 <= i <= g.n && 1 <= j <= g.n && i != j }

  ghost predicate Distinct(g: Global, i: nat, j: nat) { i <= g.n && j <= g.n && i != j }

  lemma WriteKeepsLinks(g: Global, s: Step, i: nat, j: nat)
    requires Formed(g) && Enabled(g, s) && s.a.Write? && Distinct(g, i, j)
    ensures Link(Apply(g, s), i, j) == Link(g, i, j)
  {
  }

  lemma QuietStepKeepsLinks(g: Global, s: Step, i: nat, j: nat)
    requires Formed(g) && Enabled(g, s) && Distinct(g, i, j)
    requires s.a.LeaveStarted? || s.a.LeaveDone? || s.a.Enter?
    ensures Link(Apply(g, s), i, j) == Link(g, i, j)
  {
  }

  function Announced(p: Proc, a: Action): Msg
    requires a.Start? || a.Request? || a.Exit? || a.Finish?
  {
    match a
    case Start(size) => Msg(STARTED, p.clock + 1, size)
    case Request => Msg(CS_REQUEST, p.clock + 1, 0)
    case Exit => Msg(CS_RELEASE, p.clock + 1, 0)
    case Finish(size) => Msg(DONE, p.clock + 1, size)
  }

  lemma BroadcastMovesLinks(g: Global, s: Step, i: nat, j: nat)
    requires Formed(g) && Enabled(g, s) && Distinct(g, i, j)
    requires s.a.Start? || s.a.Request? || s.a.Exit? || s.a.Finish?
    ensures i != s.k ==> Link(Apply(g, s), i, j) == Link(g, i, j)
    ensures i == s.k && j == 0 && (s.a.Request? || s.a.Exit?) ==> Link(Apply(g, s), i, j) == Link(g, i, j)
    ensures i == s.k && (j >= 1 || s.a.Start? || s.a.Finish?) ==>
              Link(Apply(g, s), i, j) == Link(g, i, j) + [Announced(g.procs[i], s.a)]
  {
  }

  /** The answer a received frame provokes. */
  function Answer(clock: int, m: Msg): seq<Msg> {
    if m.kind.CS_REQUEST? then [Msg(CS_REPLY, clock + 1, 0)] else []
  }

  /** A reception leaves nothing to write but the reply to a request. */
  lemma ReplyOnly(p: Proc, from: nat, m: Msg)
    requires Shaped(p) && from <= p.n && p.out.Quiet?
    ensures Dispatch(p, from, m).out ==
            if m.kind.CS_REQUEST? && !Rejected(p, from, m)
            then Sending(Msg(CS_REPLY, Later(p.clock, m.ts) + 1, 0), from, from) else Quiet
  {
    assert Rejected(Delivered(p, m), from, m) == Rejected(p, from, m);
  }

  lemma RecvMovesLinks(g: Global, s: Step, i: nat, j: nat)
    requires Formed(g) && Enabled(g, s) && s.a.Recv? && Distinct(g, i, j)
    ensures i == s.a.from && j == s.k ==>
              Link(g, i, j) != [] && Link(g, i, j)[0] == s.a.msg && Link(Apply(g, s), i, j) == Link(g, i, j)[1..]
    ensures i == s.k && j == s.a.from && s.a.msg.kind.CS_REQUEST? && !Rejected(g.procs[i], j, s.a.msg) ==>
              Link(Apply(g, s), i, j) == Link(g, i, j) + [Msg(CS_REPLY, Later(g.procs[i].clock, s.a.msg.ts) + 1, 0)]
    ensures !(i == s.a.from && j == s.k) && !(i == s.k && j == s.a.from && s.a.msg.kind.CS_REQUEST?) ==>
              Link(Apply(g, s), i, j) == Link(g, i, j)
  {
    ReplyOnly(g.procs[s.k], s.a.from, s.a.msg);
  }

  // ---------- receive steps pass every check of dispatch ----------

  lemma AcceptedByViews(a: Proc, b: Proc, f: seq<Msg>, r: seq<Msg>)
    requires Shaped(a) && Shaped(b) && a.n == b.n && a.id >= 1 && b.id >= 1 && f != []
    requires PairInv(ViewOf(a, b), f, r) && PairInv(ViewOf(b, a), r, f)
    ensures f[0].kind in {STARTED, DONE, CS_REQUEST, CS_REPLY, CS_RELEASE} && !Rejected(b, a.id, f[0])
  {
    HeadAccepted(ViewOf(a, b), ViewOf(b, a), f, r);
  }

  /** The parent never writes to a child. */
  lemma ParentIsSilent(g: Global, s: Step)
    requires Inv(g) && Enabled(g, s) && s.a.Recv? && s.k >= 1
    ensures s.a.from >= 1 && Pair(g, s.a.from, s.k) && PairAt(g, s.a.from, s.k) && PairAt(g, s.k, s.a.from)
  {
    assert ParentAt(g, s.k);
    RecvMovesLinks(g, s, s.a.from, s.k);
  }

  lemma ChildAccepts(g: Global, s: Step)
    requires Inv(g) && Enabled(g, s) && s.a.Recv? && s.k >= 1
    ensures s.a.from >= 1
    ensures s.a.msg.kind in {STARTED, DONE, CS_REQUEST, CS_REPLY, CS_RELEASE}
    ensures !Rejected(g.procs[s.k], s.a.from, s.a.msg)
  {
    ParentIsSilent(g, s);
    RecvMovesLinks(g, s, s.a.from, s.k);
    AcceptedByViews(g.procs[s.a.from], g.procs[s.k], Link(g, s.a.from, s.k), Link(g, s.k, s.a.from));
  }

  lemma ParentAccepts(g: Global, s: Step)
    requires Inv(g) && Enabled(g, s) && s.a.Recv? && s.k == 0
    ensures s.a.msg.kind in {STARTED, DONE}
    ensures !Rejected(g.procs[0], s.a.from, s.a.msg)
  {
    RecvMovesLinks(g, s, s.a.from, 0);
    assert ParentAt(g, s.a.from);
    WorkPop(Link(g, s.a.from, 0));
  }

  // ---------- each step keeps what a pair knows ----------

  lemma SilentStepKeepsPair(g: Global, s: Step, i: nat, j: nat)
    requires Formed(g) && Enabled(g, s) && Pair(g, i, j) && PairAt(g, i, j)
    requires s.a.Write? || s.a.LeaveStarted? || s.a.LeaveDone? || s.a.Enter?
    ensures PairAt(Apply(g, s), i, j)
  {
    if s.a.Write? {
      WriteKeepsLinks(g, s, i, j);
      WriteKeepsLinks(g, s, j, i);
    } else {
      QuietStepKeepsLinks(g, s, i, j);
      QuietStepKeepsLinks(g, s, j, i);
    }
    SilentStepKeepsView(g, s, i, j);
  }

  lemma SilentStepKeepsView(g: Global, s: Step, i: nat, j: nat)
    requires Formed(g) && Enabled(g, s) && Pair(g, i, j)
    requires s.a.Write? || s.a.LeaveStarted? || s.a.LeaveDone? || s.a.Enter?
    ensures ViewOf(Apply(g, s).procs[i], Apply(g, s).procs[j]) == ViewOf(g.procs[i], g.procs[j])
  {
    if s.k == i { SilentActionKeepsView(g.procs[i], s.a, g.procs[j]); }
    if s.k == j { SilentActionKeepsView(g.procs[j], s.a, g.procs[i]); }
  }

  lemma SilentActionKeepsView(p: Proc, a: Action, b: Proc)
    requires Shaped(p) && Shaped(b) && p.n == b.n && p.id >= 1 && Allowed(p, a)
    requires a.Write? || a.LeaveStarted? || a.LeaveDone? || a.Enter?
    ensures ViewOf(Do(p, a), b) == ViewOf(p, b) && ViewOf(b, Do(p, a)) == ViewOf(b, p)
  {
    match a
    case Write =>
    case LeaveStarted =>
    case LeaveDone =>
    case Enter =>
  }

  /** What an announcement says about its sender. */
  function Announcing(v: View, act: Action, ts: int): View {
    match act
    case Start(_) => v.(booted := true, clock := ts)
    case Request => v.(requesting := true, replied := false, ts := ts, clock := ts)
    case Exit => v.(requesting := false, rounds := v.rounds + 1, clock := ts)
    case Finish(_) => v.(finished := true, clock := ts)
    case _ => v
  }

  /** When an announcement is made, and with which frame. */
  predicate MayAnnounce(v: View, act: Action, m: Msg) {
    m.ts == v.clock + 1 &&
    match act
    case Start(_) => !v.booted && m.kind.STARTED?
    case Request => v.booted && !v.requesting && !v.finished && m.kind.CS_REQUEST? && m.size == 0
    case Exit => v.requesting && v.replied && m.kind.CS_RELEASE? && m.size == 0
    case Finish(_) => !v.requesting && !v.finished && v.rounds > 0 && m.kind.DONE?
    case _ => false
  }

  /** How an announcement by `a` changes its own view and the view its peers have of it. */
  lemma BroadcastViews(a: Proc, b: Proc, act: Action)
    requires Shaped(a) && Shaped(b) && a.n == b.n && a.id != b.id && Allowed(a, act)
    ensures act.Start? || act.Request? || act.Exit? || act.Finish? ==>
              ViewOf(Do(a, act), b) == Announcing(ViewOf(a, b), act, a.clock + 1)
    ensures act.Start? || act.Request? || act.Exit? || act.Finish? ==>
              ViewOf(b, Do(a, act)) == ViewOf(b, a).(peerClock := a.clock + 1)
  {
  }

  lemma AnnouncingKeepsPair(v: View, act: Action, f: seq<Msg>, r: seq<Msg>, m: Msg)
    requires PairInv(v, f, r) && MayAnnounce(v, act, m)
    ensures PairInv(Announcing(v, act, m.ts), f + [m], r)
  {
    match act
    case Start(_) => RequesterStarts(v, f, r, m);
    case Request => RequesterRequests(v, f, r, m);
    case Exit => RequesterReleases(v, f, r, m);
    case Finish(_) => RequesterFinishes(v, f, r, m);
  }

  lemma ChildMayAnnounce(a: Proc, b: Proc, act: Action)
    requires Shaped(a) && Shaped(b) && a.n == b.n && a.id != b.id && b.id >= 1 && a.id >= 1
    requires ChildInv(a) && Allowed(a, act)
    requires act.Start? || act.Request? || act.Exit? || act.Finish?
    ensures MayAnnounce(ViewOf(a, b), act, Announced(a, act))
  {
  }

  lemma BroadcasterKeepsPair(a: Proc, b: Proc, act: Action, f: seq<Msg>, r: seq<Msg>)
    requires Shaped(a) && Shaped(b) && a.n == b.n && a.id != b.id && b.id >= 1 && a.id >= 1
    requires ChildInv(a) && Allowed(a, act)
    requires PairInv(ViewOf(a, b), f, r)
    requires act.Start? || act.Request? || act.Exit? || act.Finish?
    ensures PairInv(ViewOf(Do(a, act), b), f + [Announced(a, act)], r)
  {
    BroadcastViews(a, b, act);
    ChildMayAnnounce(a, b, act);
    AnnouncingKeepsPair(ViewOf(a, b), act, f, r, Announced(a, act));
  }

  lemma BroadcastKeepsRequester(g: Global, s: Step, j: nat)
    requires Formed(g) && Enabled(g, s) && Pair(g, s.k, j) && PairAt(g, s.k, j) && ChildInv(g.procs[s.k])
    requires s.a.Start? || s.a.Request? || s.a.Exit? || s.a.Finish?
    ensures PairAt(Apply(g, s), s.k, j)
  {
    BroadcastMovesLinks(g, s, s.k, j);
    BroadcastMovesLinks(g, s, j, s.k);
    BroadcasterKeepsPair(g.procs[s.k], g.procs[j], s.a, Link(g, s.k, j), Link(g, j, s.k));
  }

  lemma BroadcastKeepsPair(g: Global, s: Step, i: nat, j: nat)
    requires Formed(g) && Enabled(g, s) && Pair(g, i, j) && PairAt(g, i, j) && s.k != i
    requires s.a.Start? || s.a.Request? || s.a.Exit? || s.a.Finish?
    ensures PairAt(Apply(g, s), i, j)
  {
    BroadcastMovesLinks(g, s, i, j);
    BroadcastMovesLinks(g, s, j, i);
    if j == s.k { AnnouncerKeepsPair(g.procs[j], g.procs[i], s.a, Link(g, i, j), Link(g, j, i)); }
  }

  lemma AnnouncerKeepsPair(a: Proc, b: Proc, act: Action, f: seq<Msg>, r: seq<Msg>)
    requires Shaped(a) && Shaped(b) && a.n == b.n && a.id != b.id && Allowed(a, act)
    requires act.Start? || act.Request? || act.Exit? || act.Finish?
    requires PairInv(ViewOf(b, a), f, r)
    ensures PairInv(ViewOf(b, Do(a, act)), f, r + [Announced(a, act)])
  {
    BroadcastViews(a, b, act);
    PeerSends(ViewOf(b, a), f, r, Announced(a, act));
  }

  /** What the receiver of `m` knows about the sender afterwards. */
  function Learned(v: View, m: Msg, clock: int): View {
    match m.kind
    case STARTED => v.(seenStarted := true, peerClock := clock)
    case DONE => v.(seenDone := true, peerClock := clock)
    case CS_REQUEST => v.(queued := true, seenTs := m.ts, peerClock := clock + 1)
    case CS_RELEASE => v.(queued := false, peerClock := clock)
    case _ => v.(peerClock := clock)
  }

  /** How the receiver of `m` looks to the sender afterwards. */
  function Listened(v: View, m: Msg, clock: int): View {
    match m.kind
    case CS_REPLY => v.(replied := true, clock := clock)
    case CS_REQUEST => v.(clock := clock + 1)
    case _ => v.(clock := clock)
  }

  /** The variables of a process before and after it has taken in `m`. */
  predicate Received(p: Proc, q: Proc, from: nat, m: Msg)
    requires Shaped(p) && from <= p.n
  {
    && q.id == p.id && q.n == p.n && q.pc == p.pc && q.rounds == p.rounds
    && q.requesting == p.requesting && q.inside == p.inside
    && q.started == (if m.kind.STARTED? then p.started[from := true] else p.started)
    && q.done == (if m.kind.DONE? then p.done[from := true] else p.done)
    && q.queued == (if IsCs(m.kind) && !m.kind.CS_REPLY? then p.queued[from := m.kind.CS_REQUEST?] else p.queued)
    && q.stamp == (if m.kind.CS_REQUEST? then p.stamp[from := m.ts] else p.stamp)
    && q.replied == (if m.kind.CS_REPLY? then p.replied[from := true] else p.replied)
    && q.clock == Later(p.clock, m.ts) + if m.kind.CS_REQUEST? then 1 else 0
  }

  lemma DispatchReceives(p: Proc, from: nat, m: Msg)
    requires Shaped(p) && from <= p.n && !Rejected(p, from, m)
    ensures Received(p, MutexProcess.Dispatch(p, from, m), from, m)
  {
    assert !Rejected(Delivered(p, m), from, m);
    match m.kind
    case STARTED =>
    case DONE =>
    case CS_REQUEST =>
    case CS_REPLY =>
    case CS_RELEASE =>
    case _ =>
  }

  lemma ReceiverLearns(a: Proc, b: Proc, q: Proc, m: Msg)
    requires Shaped(a) && Shaped(b) && Shaped(q) && a.n == b.n && a.id != b.id && Received(b, q, a.id, m)
    ensures ViewOf(a, q) == Learned(ViewOf(a, b), m, Later(b.clock, m.ts))
  {
    match m.kind
    case STARTED =>
    case DONE =>
    case CS_REQUEST =>
    case CS_RELEASE =>
    case _ =>
  }

  lemma ReceiverListens(a: Proc, b: Proc, q: Proc, m: Msg)
    requires Shaped(a) && Shaped(b) && Shaped(q) && a.n == b.n && a.id != b.id && Received(b, q, a.id, m)
    ensures ViewOf(q, a) == Listened(ViewOf(b, a), m, Later(b.clock, m.ts))
  {
    match m.kind
    case CS_REPLY =>
    case CS_REQUEST =>
    case _ =>
  }

  /** The receiver learns something about the sender. */
  lemma LearningKeepsPair(v: View, m: Msg, f: seq<Msg>, r: seq<Msg>, clock: int)
    requires PairInv(v, f, r) && f != [] && f[0] == m && clock == Later(v.peerClock, m.ts)
    requires m.kind in {STARTED, DONE, CS_REQUEST, CS_REPLY, CS_RELEASE}
    ensures PairInv(Learned(v, m, clock), f[1..], r + Answer(clock, m))
  {
    assert r + [] == r;
    match m.kind
    case STARTED => PeerReceivesStarted(v, f, r, clock);
    case DONE => PeerReceivesDone(v, f, r, clock);
    case CS_REQUEST => PeerReceivesRequest(v, f, r, Msg(CS_REPLY, clock + 1, 0));
    case CS_REPLY => PeerReceivesReply(v, f, r, clock);
    case CS_RELEASE => PeerReceivesRelease(v, f, r, clock);
  }

  /** The receiver as a requester towards the sender. */
  lemma RequestKeepsPair(v: View, m: Msg, f: seq<Msg>, r: seq<Msg>, clock: int)
    requires PairInv(v, f, r) && r != [] && r[0] == m && m.kind.CS_REQUEST? && clock > v.clock
    ensures PairInv(v.(clock := clock + 1), f + [Msg(CS_REPLY, clock + 1, 0)], r[1..])
  {
    var w := v.(clock := clock);
    RequesterReceives(v, f, r, clock);
    RequesterReplies(w, f, r[1..], Msg(CS_REPLY, clock + 1, 0));
    assert w.(clock := clock + 1) == v.(clock := clock + 1);
  }

  lemma ListeningKeepsPair(v: View, m: Msg, f: seq<Msg>, r: seq<Msg>, top: int, clock: int)
    requires PairInv(v, f, r) && r != [] && r[0] == m && Rising(r, top) && clock == Later(v.clock, m.ts)
    ensures PairInv(Listened(v, m, clock), f + Answer(clock, m), r[1..])
  {
    if m.kind.CS_REQUEST? {
      RequestKeepsPair(v, m, f, r, clock);
      assert Listened(v, m, clock) == v.(clock := clock + 1) && Answer(clock, m) == [Msg(CS_REPLY, clock + 1, 0)];
    } else {
      assert f + Answer(clock, m) == f;
      if m.kind.CS_REPLY? { RequesterReceivesReply(v, f, r, top, clock); } else { RequesterReceives(v, f, r, clock); }
    }
  }

  /** The two links between sender and receiver after the reception. */
  lemma ReceiptMovesLinks(g: Global, s: Step)
    requires Inv(g) && Enabled(g, s) && s.a.Recv? && s.k >= 1
    ensures var i, j, h := s.a.from, s.k, Apply(g, s);
            && Pair(g, i, j)
            && Link(g, i, j) != [] && Link(g, i, j)[0] == s.a.msg && Link(h, i, j) == Link(g, i, j)[1..]
            && Link(h, j, i) == Link(g, j, i) + Answer(Later(g.procs[j].clock, s.a.msg.ts), s.a.msg)
  {
    ChildAccepts(g, s);
    RecvMovesLinks(g, s, s.a.from, s.k);
    RecvMovesLinks(g, s, s.k, s.a.from);
    assert Link(g, s.k, s.a.from) + [] == Link(g, s.k, s.a.from);
  }

  lemma RecvKeepsSenderPair(g: Global, s: Step)
    requires Inv(g) && Enabled(g, s) && s.a.Recv? && s.k >= 1
    ensures s.a.from >= 1 && PairAt(Apply(g, s), s.a.from, s.k)
  {
    var a, b := g.procs[s.a.from], g.procs[s.k];
    ChildAccepts(g, s);
    assert PairAt(g, s.a.from, s.k);
    ReceiptMovesLinks(g, s);
    DispatchReceives(b, s.a.from, s.a.msg);
    ReceiverLearns(a, b, Apply(g, s).procs[s.k], s.a.msg);
    LearningKeepsPair(ViewOf(a, b), s.a.msg, Link(g, s.a.from, s.k), Link(g, s.k, s.a.from),
                      Later(b.clock, s.a.msg.ts));
  }

  lemma RecvKeepsReceiverPair(g: Global, s: Step)
    requires Inv(g) && Enabled(g, s) && s.a.Recv? && s.k >= 1
    ensures s.a.from >= 1 && PairAt(Apply(g, s), s.k, s.a.from)
  {
    var a, b := g.procs[s.a.from], g.procs[s.k];
    ChildAccepts(g, s);
    assert PairAt(g, s.a.from, s.k) && PairAt(g, s.k, s.a.from);
    ReceiptMovesLinks(g, s);
    DispatchReceives(b, s.a.from, s.a.msg);
    ReceiverListens(a, b, Apply(g, s).procs[s.k], s.a.msg);
    ListeningKeepsPair(ViewOf(b, a), s.a.msg, Link(g, s.k, s.a.from), Link(g, s.a.from, s.k), a.clock,
                       Later(b.clock, s.a.msg.ts));
  }

  /** A pair one of whose members merely advances its clock. */
  lemma ClockKeepsPair(v: View, w: View, f: seq<Msg>, r: seq<Msg>)
    requires PairInv(v, f, r)
    requires w == v.(clock := w.clock, peerClock := w.peerClock)
    requires w.clock >= v.clock && w.peerClock >= v.peerClock
    ensures PairInv(w, f, r)
  {
  }

  /** A frame from someone else leaves what `p` and `b` know of each other alone. */
  lemma OthersUnaffected(p: Proc, q: Proc, b: Proc, from: nat, m: Msg)
    requires Shaped(p) && Shaped(q) && Shaped(b) && p.n == b.n && from <= p.n && from != b.id && from != p.id
    requires p.id != b.id && Received(p, q, from, m)
    ensures q.clock >= p.clock
    ensures ViewOf(q, b) == ViewOf(p, b).(clock := q.clock)
    ensures ViewOf(b, q) == ViewOf(b, p).(peerClock := q.clock)
  {
  }

  lemma OthersAfter(g: Global, s: Step, i: nat, j: nat)
    requires Inv(g) && Enabled(g, s) && s.a.Recv? && Pair(g, i, j)
    requires !(i == s.k && j == s.a.from) && !(j == s.k && i == s.a.from)
    ensures var v, a, b := ViewOf(g.procs[i], g.procs[j]), Apply(g, s).procs[i], Apply(g, s).procs[j];
            ViewOf(a, b) == v.(clock := a.clock, peerClock := b.clock) && a.clock >= v.clock && b.clock >= v.peerClock
  {
    if s.k >= 1 { ChildAccepts(g, s); } else { ParentAccepts(g, s); }
    DispatchReceives(g.procs[s.k], s.a.from, s.a.msg);
    if s.k == i { OthersUnaffected(g.procs[i], Apply(g, s).procs[i], g.procs[j], s.a.from, s.a.msg); }
    if s.k == j { OthersUnaffected(g.procs[j], Apply(g, s).procs[j], g.procs[i], s.a.from, s.a.msg); }
  }

  lemma RecvKeepsOtherPair(g: Global, s: Step, i: nat, j: nat)
    requires Inv(g) && Enabled(g, s) && s.a.Recv? && Pair(g, i, j)
    requires !(i == s.k && j == s.a.from) && !(j == s.k && i == s.a.from)
    ensures PairAt(Apply(g, s), i, j)
  {
    assert PairAt(g, i, j);
    RecvMovesLinks(g, s, i, j);
    RecvMovesLinks(g, s, j, i);
    OthersAfter(g, s, i, j);
    ClockKeepsPair(ViewOf(g.procs[i], g.procs[j]), ViewOf(Apply(g, s).procs[i], Apply(g, s).procs[j]),
                   Link(g, i, j), Link(g, j, i));
  }

  lemma StepKeepsPair(g: Global, s: Step, i: nat, j: nat)
    requires Inv(g) && Enabled(g, s) && Pair(g, i, j)
    ensures PairAt(Apply(g, s), i, j)
  {
    if s.a.Recv? {
      if i == s.k && j == s.a.from { RecvKeepsReceiverPair(g, s); }
      else if j == s.k && i == s.a.from { RecvKeepsSenderPair(g, s); }
      else { RecvKeepsOtherPair(g, s, i, j); }
    } else if s.a.Start? || s.a.Request? || s.a.Exit? || s.a.Finish? {
      if i == s.k { BroadcastKeepsRequester(g, s, j); } else { BroadcastKeepsPair(g, s, i, j); }
    } else {
      SilentStepKeepsPair(g, s, i, j);
    }
  }

  // ---------- each step keeps the local facts ----------

  lemma ChildHears(p: Proc, from: nat, m: Msg)
    requires Shaped(p) && p.id >= 1 && ChildInv(p) && Allowed(p, Recv(from, m))
    requires from >= 1 && !Rejected(p, from, m)
    ensures ChildInv(Do(p, Recv(from, m)))
  {
    DispatchReceives(p, from, m);
    ReplyOnly(p, from, m);
  }

  lemma ChildActs(p: Proc, a: Action)
    requires Shaped(p) && p.id >= 1 && ChildInv(p) && Allowed(p, a) && !a.Recv?
    ensures ChildInv(Do(p, a))
  {
  }

  lemma ChildStep(p: Proc, a: Action)
    requires Shaped(p) && p.id >= 1 && ChildInv(p) && Allowed(p, a)
    requires a.Recv? ==> a.from >= 1 && !Rejected(p, a.from, a.msg)
    ensures ChildInv(Do(p, a))
  {
    if a.Recv? { ChildHears(p, a.from, a.msg); } else { ChildActs(p, a); }
  }

  lemma ParentStep(p: Proc, a: Action)
    requires Shaped(p) && p.id == 0 && ParentInv(p) && Allowed(p, a)
    requires a.Recv? ==> a.msg.kind in {STARTED, DONE} && !Rejected(p, a.from, a.msg)
    ensures ParentInv(Do(p, a))
  {
  }

  lemma StepKeepsLocal(g: Global, s: Step)
    requires Inv(g) && Enabled(g, s)
    ensures var h := Apply(g, s);
            ParentInv(h.procs[0]) && forall i :: 1 <= i <= g.n ==> ChildInv(h.procs[i])
  {
    if s.k == 0 {
      if s.a.Recv? { ParentAccepts(g, s); }
      ParentStep(g.procs[0], s.a);
    } else {
      if s.a.Recv? { ChildAccepts(g, s); }
      ChildStep(g.procs[s.k], s.a);
    }
  }

  /** The links between a child and the parent. */
  lemma BroadcasterKeepsParentLink(a: Proc, b: Proc, act: Action, f: seq<Msg>)
    requires Shaped(a) && Shaped(b) && a.n == b.n && a.id >= 1 && ChildInv(a) && Allowed(a, act) && ParentLink(a, b, f)
    requires act.Start? || act.Request? || act.Exit? || act.Finish?
    ensures ParentLink(Do(a, act), b, if act.Start? || act.Finish? then f + [Announced(a, act)] else f)
  {
    WorkAppend(f, Announced(a, act));
  }

  lemma ListenerKeepsParentLink(a: Proc, b: Proc, act: Action, f: seq<Msg>)
    requires Shaped(a) && Shaped(b) && a.n == b.n && a.id >= 1 && Allowed(a, act) && ParentLink(a, b, f)
    requires !(act.Start? || act.Request? || act.Exit? || act.Finish?)
    requires act.Recv? ==> !Rejected(a, act.from, act.msg)
    ensures ParentLink(Do(a, act), b, f)
  {
  }

  lemma ChildMovesParentLink(g: Global, s: Step)
    requires Inv(g) && Enabled(g, s) && s.k >= 1
    ensures ParentAt(Apply(g, s), s.k)
  {
    assert ParentAt(g, s.k);
    var a, b, f := g.procs[s.k], g.procs[0], Link(g, s.k, 0);
    if s.a.Start? || s.a.Request? || s.a.Exit? || s.a.Finish? {
      BroadcastMovesLinks(g, s, s.k, 0);
      BroadcastMovesLinks(g, s, 0, s.k);
      BroadcasterKeepsParentLink(a, b, s.a, f);
    } else {
      if s.a.Recv? { ChildAccepts(g, s); }
      ListenerKeepsParentLink(a, b, s.a, f);
      ListenerKeepsLinks(g, s);
    }
  }

  lemma ListenerKeepsLinks(g: Global, s: Step)
    requires Formed(g) && Enabled(g, s) && s.k >= 1 && !(s.a.Start? || s.a.Request? || s.a.Exit? || s.a.Finish?)
    requires s.a.Recv? ==> s.a.from >= 1
    ensures Link(Apply(g, s), s.k, 0) == Link(g, s.k, 0) && Link(Apply(g, s), 0, s.k) == Link(g, 0, s.k)
  {
    if s.a.Recv? {
      RecvMovesLinks(g, s, s.k, 0);
      RecvMovesLinks(g, s, 0, s.k);
    } else if s.a.Write? {
      WriteKeepsLinks(g, s, s.k, 0);
      WriteKeepsLinks(g, s, 0, s.k);
    } else {
      QuietStepKeepsLinks(g, s, s.k, 0);
      QuietStepKeepsLinks(g, s, 0, s.k);
    }
  }

  lemma ParentMovesParentLink(g: Global, s: Step, i: nat)
    requires Inv(g) && Enabled(g, s) && s.k == 0 && 1 <= i <= g.n
    ensures ParentAt(Apply(g, s), i)
  {
    assert ParentAt(g, i);
    if s.a.Recv? {
      ParentAccepts(g, s);
      RecvMovesLinks(g, s, i, 0);
      RecvMovesLinks(g, s, 0, i);
      if i == s.a.from { WorkPop(Link(g, i, 0)); }
    } else {
      QuietStepKeepsLinks(g, s, i, 0);
      QuietStepKeepsLinks(g, s, 0, i);
    }
  }

  lemma OtherMovesParentLink(g: Global, s: Step, i: nat)
    requires Inv(g) && Enabled(g, s) && s.k != 0 && 1 <= i <= g.n && i != s.k
    ensures ParentAt(Apply(g, s), i)
  {
    assert ParentAt(g, i);
    if s.a.Recv? {
      RecvMovesLinks(g, s, i, 0);
      RecvMovesLinks(g, s, 0, i);
    } else if s.a.Write? {
      WriteKeepsLinks(g, s, i, 0);
      WriteKeepsLinks(g, s, 0, i);
    } else if s.a.Start? || s.a.Request? || s.a.Exit? || s.a.Finish? {
      BroadcastMovesLinks(g, s, i, 0);
      BroadcastMovesLinks(g, s, 0, i);
    } else {
      QuietStepKeepsLinks(g, s, i, 0);
      QuietStepKeepsLinks(g, s, 0, i);
    }
  }

  /** Every step of every process keeps the invariant. */
  lemma StepKeepsInv(g: Global, s: Step)
    requires Inv(g) && Enabled(g, s)
    ensures Inv(Apply(g, s))
  {
    var h := Apply(g, s);
    StepKeepsLocal(g, s);
    forall i | 1 <= i <= g.n ensures ParentAt(h, i) {
      if s.k == 0 { ParentMovesParentLink(g, s, i); }
      else if i == s.k { ChildMovesParentLink(g, s); }
      else { OtherMovesParentLink(g, s, i); }
    }
    forall i, j | 1 <= i <= g.n && 1 <= j <= g.n && i != j ensures PairAt(h, i, j) {
      StepKeepsPair(g, s, i, j);
    }
  }

  /** The invariant holds in every state of every behaviour. */
  lemma {:induction false} InvAlways(n: nat, states: seq<Global>, run: seq<Step>, t: nat)
    requires Behaviour(n, states, run) && t <= |run|
    ensures Inv(states[t]) && states[t].n == n
  {
    if t == 0 {
      InitInv(n);
    } else {
      InvAlways(n, states, run, t - 1);
      assert StepAt(states, run, t - 1);
      StepKeepsInv(states[t - 1], run[t - 1]);
    }
  }
}
