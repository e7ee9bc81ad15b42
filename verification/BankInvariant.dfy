/** The inductive invariant of the bank: where the one transfer in progress is, and
    what every link therefore holds. */
module BankInvariant {
  import opened Wire
  import opened LedgerCells
  import opened BankProcess
  import opened BankSystem
  import opened BankPair

  /** The stages of the transfer in progress: told to the source, on its way to the
      destination, credited but not yet acknowledged. */
  datatype Token = None | Told(order: Order) | Forwarded(order: Order) | Landed(order: Order)

  function Unsent(p: Proc, j: nat): seq<Frame> {
    if p.out.Sending? && p.out.next <= j <= p.out.last && j != p.id then [p.out.frame] else []
  }

  function Link(g: Global, i: nat, j: nat): seq<Frame>
    requires i < |g.procs| && i < |g.chan| && j < |g.chan[i]|
  {
    g.chan[i][j] + Unsent(g.procs[i], j)
  }

  /** `p` has taken the STARTED of child `j` off its link. */
  predicate HeardStarted(p: Proc, j: nat) {
    match p.pc
    case Boot => false
    case AwaitStarted(peer) => j < peer
    case _ => true
  }

  predicate HeardDone(p: Proc, j: nat)
    requires j < |p.doneMask|
  {
    if p.id != PARENT then p.doneMask[j]
    else match p.pc
      case AwaitDone(peer) => j < peer
      case _ => p.pc.AwaitHistory? || p.pc.Exited?
  }

  predicate HeardHistory(p: Proc, j: nat) {
    match p.pc
    case AwaitHistory(peer) => j < peer
    case _ => p.pc.Exited?
  }

  predicate HasStopped(p: Proc) {
    p.pc.AwaitDone? || p.pc.AwaitHistory? || p.pc.Exited?
  }

  /** The kind of frame that carries the token from `i` to `j`, if it is there. */
  function Carried(tk: Token, i: nat, j: nat): seq<Kind> {
    match tk
    case None => []
    case Told(o) => if i == PARENT && j == o.src then [TRANSFER] else []
    case Forwarded(o) => if i == o.src && j == o.dst then [TRANSFER] else []
    case Landed(o) => if i == o.dst && j == PARENT then [ACK] else []
  }

  function ViewOf(a: Proc, b: Proc, tk: Token): View
    requires Shaped(a) && Shaped(b) && a.n == b.n
  {
    View(a.id != PARENT && !a.pc.Boot? && !HeardStarted(b, a.id),
         Carried(tk, a.id, b.id),
         a.id == PARENT && HasStopped(a) && !b.stopped,
         a.id != PARENT && a.stopped && !HeardDone(b, a.id),
         a.id != PARENT && b.id == PARENT && a.pc.Reported? && !HeardHistory(b, a.id))
  }

  predicate FrameFits(m: Frame, a: Proc, tk: Token) {
    && m.ts >= 0
    && (m.kind.TRANSFER? ==> !tk.None? && m.payload == Transfer(tk.order))
    && (m.kind.ACK? || m.kind.STOP? ==> m.payload.Empty?)
    && (m.kind.BALANCE_HISTORY? ==> a.pc.Reported? && m.payload == Balances(a.id, a.ledger))
  }

  /** What `b` believes about `a` is true. */
  predicate BeliefsHold(a: Proc, b: Proc)
    requires Shaped(a) && Shaped(b) && a.n == b.n
  {
    && (a.id != PARENT && HeardStarted(b, a.id) ==> !a.pc.Boot?)
    && (a.id != PARENT && HeardDone(b, a.id) ==> a.stopped)
    && (a.id == PARENT && b.stopped ==> HasStopped(a))
    && (a.id != PARENT && b.id == PARENT && HeardHistory(b, a.id) ==>
          a.pc.Reported? && a.id <= |b.collected| && b.collected[a.id - 1] == a.ledger)
  }

  predicate LedgerShape(l: Cells, opening: int, clock: int) {
    && l != [] && |l| - 1 <= clock
    && l[0].balance == opening && l[|l| - 1].pending == 0
    && forall t :: 0 <= t < |l| ==> l[t].time == t && l[t].pending >= 0
  }

  predicate ChildInv(p: Proc, opening: int)
    requires Shaped(p) && p.id != PARENT
  {
    && !p.pc.Failed?
    && (p.stopped ==> p.pc.Running? || p.pc.Reported?)
    && (p.pc.Reported? ==> p.stopped)
    && !p.doneMask[0] && !p.doneMask[p.id]
    && LedgerShape(p.ledger, opening, p.clock)
  }

  predicate ParentInv(p: Proc, tk: Token, script: seq<Order>)
    requires Shaped(p) && p.id == PARENT
  {
    && !p.pc.Failed? && !p.stopped
    && (p.pc.AwaitAck? <==> !tk.None?)
    && (p.pc.AwaitAck? ==> p.pc.k < |script| && tk.order == script[p.pc.k])
    && |p.collected| == (match p.pc case AwaitHistory(peer) => peer - 1 case Exited => p.n case _ => 0)
  }

  /** What holds between a sender and a receiver. */
  predicate Holds(a: Proc, b: Proc, tk: Token, f: seq<Frame>)
    requires Shaped(a) && Shaped(b) && a.n == b.n
  {
    && BeliefsHold(a, b)
    && Kinds(f) == Expected(ViewOf(a, b, tk))
    && forall m :: m in f ==> FrameFits(m, a, tk)
  }

  ghost predicate PairAt(g: Global, tk: Token, i: nat, j: nat)
    requires Formed(g) && i <= g.n && j <= g.n
  {
    Holds(g.procs[i], g.procs[j], tk, Link(g, i, j))
  }

  ghost predicate Pair(g: Global, i: int, j: int) { 0 <= i <= g.n && 0 <= j <= g.n && i != j }

  ghost predicate Inv(g: Global, tk: Token) {
    && Formed(g)
    && ParentInv(g.procs[0], tk, g.script)
    && (forall i :: 1 <= i <= g.n ==> ChildInv(g.procs[i], g.opening[i]))
    && (forall i: nat, j: nat :: Pair(g, i, j) ==> PairAt(g, tk, i, j))
  }

  /** Where a step leaves the token. */
  function NextToken(p: Proc, a: Action, tk: Token, script: seq<Order>): Token
    requires Shaped(p)
  {
    if a.Instruct? && p.pc.Issue? && p.pc.k < |script| then Told(script[p.pc.k])
    else if a.Recv? && p.pc.AwaitAck? then None
    else if a.Recv? && p.pc.Running? && a.msg.kind.TRANSFER? && !tk.None? then
      (if tk.Told? then Forwarded(tk.order) else Landed(tk.order))
    else tk
  }

  lemma InitInv(n: nat, script: seq<Order>, opening: seq<int>)
    requires n >= 1 && ValidScript(n, script) && |opening| == n + 1
    ensures Inv(Initial(n, script, opening), None)
  {
    var g := Initial(n, script, opening);
    assert Formed(g);
    forall i: nat, j: nat | Pair(g, i, j) ensures PairAt(g, None, i, j) {
      assert Link(g, i, j) == [];
    }
  }

  // ---------- how a step moves the links ----------

  /** The frame an action stamps, and whether it is addressed to `j`. */
  function Stamped(p: Proc, a: Action, script: seq<Order>): Out
    requires Shaped(p) && p.clock >= 0 && Allowed(p, a, script)
    requires forall o :: o in script ==> ValidOrder(o, p.n)
  {
    if a.Write? then Quiet else Do(p, a, script).out
  }

  function AddedTo(p: Proc, a: Action, script: seq<Order>, j: nat): seq<Frame>
    requires Shaped(p) && p.clock >= 0 && Allowed(p, a, script)
    requires forall o :: o in script ==> ValidOrder(o, p.n)
  {
    var out := Stamped(p, a, script);
    if out.Sending? && out.next <= j <= out.last && j != p.id then [out.frame] else []
  }

  /** Writing changes no link; every other action takes the received frame off its link
      and appends what it stamps to the links of the targets. */
  lemma StepMovesLinks(g: Global, s: Step, i: nat, j: nat)
    requires Formed(g) && Enabled(g, s) && Pair(g, i, j)
    ensures s.a.Recv? && i == s.a.from && j == s.k ==>
              Link(g, i, j) != [] && Link(g, i, j)[0] == s.a.msg && Link(Apply(g, s), i, j) == Link(g, i, j)[1..]
    ensures i == s.k ==> Link(Apply(g, s), i, j) == Link(g, i, j) + AddedTo(g.procs[i], s.a, g.script, j)
    ensures i != s.k && !(s.a.Recv? && i == s.a.from && j == s.k) ==> Link(Apply(g, s), i, j) == Link(g, i, j)
  {
    var h := Apply(g, s);
    if s.a.Write? && i == s.k {
      assert g.chan[i][j] + Unsent(g.procs[i], j) == h.chan[i][j] + Unsent(h.procs[i], j);
    }
  }

  // ---------- no check fails on what actually arrives ----------

  lemma FrontOf(a: Proc, b: Proc, tk: Token, f: seq<Frame>)
    requires Shaped(a) && Shaped(b) && a.n == b.n && Holds(a, b, tk, f) && f != []
    ensures FrameFits(f[0], a, tk)
    ensures var v := ViewOf(a, b, tk);
            f[0].kind == (if v.started then STARTED
                          else if v.token != [] then v.token[0]
                          else if v.stop then STOP
                          else if v.done then DONE
                          else BALANCE_HISTORY)
            && (!v.started && v.token == [] && !v.stop && !v.done ==> v.history)
  {
    assert f[0] in f;
    TakeFirst(ViewOf(a, b, tk), f);
  }

  /** The frame at the head of a link and the view that goes with it. */
  lemma HeadOf(g: Global, tk: Token, s: Step)
    requires Inv(g, tk) && Enabled(g, s) && s.a.Recv?
    ensures Pair(g, s.a.from, s.k) && FrameFits(s.a.msg, g.procs[s.a.from], tk)
    ensures BeliefsHold(g.procs[s.a.from], g.procs[s.k])
    ensures var v := ViewOf(g.procs[s.a.from], g.procs[s.k], tk);
            s.a.msg.kind == (if v.started then STARTED
                             else if v.token != [] then v.token[0]
                             else if v.stop then STOP
                             else if v.done then DONE
                             else BALANCE_HISTORY)
            && (!v.started && v.token == [] && !v.stop && !v.done ==> v.history)
  {
    StepMovesLinks(g, s, s.a.from, s.k);
    assert PairAt(g, tk, s.a.from, s.k);
    FrontOf(g.procs[s.a.from], g.procs[s.k], tk, Link(g, s.a.from, s.k));
  }

  /** Nothing but a running parent makes a token, and then every child is up. */
  lemma TokenMeansUp(g: Global, tk: Token, j: nat)
    requires Inv(g, tk) && 1 <= j <= g.n && !tk.None?
    ensures !g.procs[j].pc.Boot? && !g.procs[j].stopped && !g.procs[j].pc.Reported?
    ensures g.procs[0].pc.AwaitAck?
  {
    assert PairAt(g, tk, j, 0) && PairAt(g, tk, 0, j);
    assert ChildInv(g.procs[j], g.opening[j]);
  }

  lemma ParentAccepts(g: Global, tk: Token, s: Step)
    requires Inv(g, tk) && Enabled(g, s) && s.a.Recv? && s.k == 0
    ensures !Rejected(Moved(g.procs[0], s.a.msg), s.a.from, s.a.msg)
    ensures s.a.from >= 1
    ensures g.procs[0].pc.AwaitAck? ==> tk.Landed? && s.a.from == tk.order.dst
  {
    HeadOf(g, tk, s);
    var j := s.a.from;
    assert ChildInv(g.procs[j], g.opening[j]);
    assert PairAt(g, tk, 0, j);
    if !tk.None? { TokenMeansUp(g, tk, j); }
  }

  lemma StartingChildAccepts(g: Global, tk: Token, s: Step)
    requires Inv(g, tk) && Enabled(g, s) && s.a.Recv? && s.k >= 1 && g.procs[s.k].pc.AwaitStarted?
    ensures !Rejected(Moved(g.procs[s.k], s.a.msg), s.a.from, s.a.msg)
    ensures s.a.from >= 1 && s.a.msg.kind.STARTED?
  {
    HeadOf(g, tk, s);
    var j := s.a.from;
    assert ChildInv(g.procs[j], g.opening[j]);
    if !tk.None? { TokenMeansUp(g, tk, j); }
  }

  lemma RunningChildAccepts(g: Global, tk: Token, s: Step)
    requires Inv(g, tk) && Enabled(g, s) && s.a.Recv? && s.k >= 1 && g.procs[s.k].pc.Running?
    ensures !Rejected(Moved(g.procs[s.k], s.a.msg), s.a.from, s.a.msg)
    ensures s.a.msg.kind.TRANSFER? ==>
              && !tk.None? && s.a.msg.payload == Transfer(tk.order)
              && ((tk.Told? && s.a.from == 0 && s.k == tk.order.src)
                  || (tk.Forwarded? && s.a.from == tk.order.src && s.k == tk.order.dst))
    ensures s.a.msg.kind.STOP? ==> s.a.from == 0
    ensures s.a.msg.kind.DONE? ==> s.a.from >= 1
    ensures s.a.msg.kind in {TRANSFER, STOP, DONE}
  {
    HeadOf(g, tk, s);
    var j := s.a.from;
    assert ChildInv(g.procs[s.k], g.opening[s.k]);
    assert j >= 1 ==> ChildInv(g.procs[j], g.opening[j]);
    if !tk.None? {
      TokenMeansUp(g, tk, s.k);
      assert tk.order in g.script && ValidOrder(tk.order, g.n);
    }
  }

  // ---------- the token elsewhere ----------

  /** Frames stay in order when the token moves between other processes. */
  lemma FramesFitLater(f: seq<Frame>, a: Proc, b: Proc, tk: Token, tk': Token)
    requires Shaped(a) && Shaped(b) && a.n == b.n && Holds(a, b, tk, f)
    requires !tk.None? && !tk'.None? ==> tk.order == tk'.order
    requires Carried(tk, a.id, b.id) == [TRANSFER] ==> !tk'.None?
    ensures forall m :: m in f ==> FrameFits(m, a, tk')
  {
    KindsPresent(f);
  }

  lemma TokenElsewhere(f: seq<Frame>, a: Proc, b: Proc, tk: Token, tk': Token)
    requires Shaped(a) && Shaped(b) && a.n == b.n && Holds(a, b, tk, f)
    requires !tk.None? && !tk'.None? ==> tk.order == tk'.order
    requires Carried(tk, a.id, b.id) == Carried(tk', a.id, b.id)
    ensures Holds(a, b, tk', f)
  {
    FramesFitLater(f, a, b, tk, tk');
  }

  // ---------- the sender moves ----------

  ghost predicate Ready(p: Proc, script: seq<Order>) {
    Shaped(p) && p.clock >= 0 && forall o :: o in script ==> ValidOrder(o, p.n)
  }

  predicate Silent(a: Action) {
    a.Skip? || a.PassStarted? || a.PassDone? || a.Close? || a.Write?
  }

  /** The sender's own variables, as far as its links depend on them. */
  predicate Unmoved(a: Proc, q: Proc) {
    && q.id == a.id && q.n == a.n && q.stopped == a.stopped && q.ledger == a.ledger
    && q.pc.Boot? == a.pc.Boot? && q.pc.Reported? == a.pc.Reported? && HasStopped(q) == HasStopped(a)
  }

  lemma UnmovedSender(a: Proc, q: Proc, b: Proc, tk: Token, f: seq<Frame>)
    requires Shaped(a) && Shaped(q) && Shaped(b) && a.n == b.n && a.id != b.id && Unmoved(a, q) && Holds(a, b, tk, f)
    ensures Holds(q, b, tk, f)
  {
    assert ViewOf(q, b, tk) == ViewOf(a, b, tk);
  }

  lemma SilentSender(a: Proc, b: Proc, tk: Token, f: seq<Frame>, act: Action, script: seq<Order>)
    requires Ready(a, script) && Shaped(b) && a.n == b.n && a.id != b.id && Holds(a, b, tk, f)
    requires Allowed(a, act, script) && Silent(act)
    ensures Holds(Do(a, act, script), b, tk, f)
  {
    UnmovedSender(a, Do(a, act, script), b, tk, f);
  }

  lemma StartingSender(a: Proc, b: Proc, tk: Token, f: seq<Frame>, act: Action, script: seq<Order>)
    requires Ready(a, script) && Shaped(b) && a.n == b.n && a.id != b.id && Holds(a, b, tk, f)
    requires Allowed(a, act, script) && act.Start? && !a.stopped && tk.None?
    ensures Holds(Do(a, act, script), b, tk, f + AddedTo(a, act, script, b.id))
  {
    SendStarted(ViewOf(a, b, tk), f, Do(a, act, script).out.frame);
  }

  lemma ReportingSender(a: Proc, b: Proc, tk: Token, f: seq<Frame>, act: Action, script: seq<Order>)
    requires Ready(a, script) && Shaped(b) && a.n == b.n && a.id != b.id && Holds(a, b, tk, f)
    requires Allowed(a, act, script) && act.Report?
    ensures Holds(Do(a, act, script), b, tk, f + AddedTo(a, act, script, b.id))
  {
    if b.id == PARENT { SendHistory(ViewOf(a, b, tk), f, Do(a, act, script).out.frame); }
    else { assert f + [] == f; }
  }

  lemma InstructingSender(a: Proc, b: Proc, f: seq<Frame>, act: Action, script: seq<Order>)
    requires Ready(a, script) && Shaped(b) && a.n == b.n && a.id != b.id && Holds(a, b, None, f)
    requires Allowed(a, act, script) && act.Instruct? && a.id == PARENT
    ensures Holds(Do(a, act, script), b, Told(script[a.pc.k]), f + AddedTo(a, act, script, b.id))
  {
    var o := script[a.pc.k];
    if b.id == o.src { SendToken(ViewOf(a, b, None), f, Do(a, act, script).out.frame); }
    else { assert f + [] == f; }
    FramesFitLater(f, a, b, None, Told(o));
  }

  lemma StoppingSender(a: Proc, b: Proc, tk: Token, f: seq<Frame>, act: Action, script: seq<Order>)
    requires Ready(a, script) && Shaped(b) && a.n == b.n && a.id != b.id && Holds(a, b, tk, f)
    requires Allowed(a, act, script) && act.Stop? && a.id == PARENT
    ensures Holds(Do(a, act, script), b, tk, f + AddedTo(a, act, script, b.id))
  {
    SendStop(ViewOf(a, b, tk), f, Do(a, act, script).out.frame);
  }

  // ---------- the sender has received something ----------

  ghost predicate Hears(a: Proc, act: Action, script: seq<Order>) {
    Ready(a, script) && Allowed(a, act, script) && act.Recv? && !Rejected(Moved(a, act.msg), act.from, act.msg)
  }

  /** A reception that only moves a counter forward. */
  lemma ListeningSender(a: Proc, b: Proc, tk: Token, f: seq<Frame>, act: Action, script: seq<Order>)
    requires Hears(a, act, script) && Shaped(b) && a.n == b.n && a.id != b.id && Holds(a, b, tk, f)
    requires a.pc.Running? ==> act.msg.kind.DONE?
    ensures Holds(Do(a, act, script), b, tk, f)
  {
    if a.pc.Running? { RunningReceiver(a, act, script); } else { WaitingReceiver(a, act, script); }
    UnmovedSender(a, Do(a, act, script), b, tk, f);
  }

  /** The transfer in progress passes through `a`, which sends on `sent` if `b` is next. */
  lemma TokenSender(a: Proc, q: Proc, b: Proc, tk: Token, tk': Token, f: seq<Frame>, sent: seq<Frame>)
    requires Shaped(a) && Shaped(q) && Shaped(b) && q.n == a.n == b.n && q.id == a.id != b.id && Holds(a, b, tk, f)
    requires a.pc.Running? && q.pc == a.pc && !a.stopped && !q.stopped
    requires !tk.None? && !tk'.None? && tk'.order == tk.order && Carried(tk, a.id, b.id) == []
    requires if Carried(tk', a.id, b.id) == [] then sent == []
             else |sent| == 1 && Carried(tk', a.id, b.id) == [sent[0].kind] && FrameFits(sent[0], q, tk')
    ensures Holds(q, b, tk', f + sent)
  {
    FramesFitLater(f, a, b, tk, tk');
    if sent == [] { assert f + sent == f; }
    else { SendToken(ViewOf(a, b, tk), f, sent[0]); assert f + sent == f + [sent[0]]; }
    assert ViewOf(q, b, tk') == ViewOf(a, b, tk).(token := Carried(tk', a.id, b.id));
  }

  lemma DoneSender(a: Proc, q: Proc, b: Proc, tk: Token, f: seq<Frame>, m: Frame)
    requires Shaped(a) && Shaped(q) && Shaped(b) && q.n == a.n == b.n && q.id == a.id != b.id && Holds(a, b, tk, f)
    requires a.pc.Running? && q.pc == a.pc && !a.stopped && q.stopped && a.id != PARENT && m.kind.DONE? && m.ts >= 0
    ensures Holds(q, b, tk, f + [m])
  {
    assert ViewOf(q, b, tk) == ViewOf(a, b, tk).(done := true);
    SendDone(ViewOf(a, b, tk), f, m);
  }

  lemma ForwardingSender(a: Proc, b: Proc, tk: Token, f: seq<Frame>, act: Action, script: seq<Order>)
    requires Hears(a, act, script) && Shaped(b) && a.n == b.n && a.id != b.id && Holds(a, b, tk, f)
    requires a.pc.Running? && act.msg.kind.TRANSFER? && act.from == PARENT && !a.stopped
    requires tk.Told? && act.msg.payload == Transfer(tk.order) && a.id == tk.order.src
    ensures Holds(Do(a, act, script), b, Forwarded(tk.order), f + AddedTo(a, act, script, b.id))
  {
    RunningReceiver(a, act, script);
    TokenSender(a, Do(a, act, script), b, tk, Forwarded(tk.order), f, AddedTo(a, act, script, b.id));
  }

  lemma CreditingSender(a: Proc, b: Proc, tk: Token, f: seq<Frame>, act: Action, script: seq<Order>)
    requires Hears(a, act, script) && Shaped(b) && a.n == b.n && a.id != b.id && Holds(a, b, tk, f)
    requires a.pc.Running? && act.msg.kind.TRANSFER? && !a.stopped
    requires tk.Forwarded? && act.msg.payload == Transfer(tk.order) && a.id == tk.order.dst && act.from == tk.order.src
    ensures Holds(Do(a, act, script), b, Landed(tk.order), f + AddedTo(a, act, script, b.id))
  {
    RunningReceiver(a, act, script);
    TokenSender(a, Do(a, act, script), b, tk, Landed(tk.order), f, AddedTo(a, act, script, b.id));
  }

  lemma StoppedSender(a: Proc, b: Proc, tk: Token, f: seq<Frame>, act: Action, script: seq<Order>)
    requires Hears(a, act, script) && Shaped(b) && a.n == b.n && a.id != b.id && Holds(a, b, tk, f)
    requires a.pc.Running? && act.msg.kind.STOP?
    ensures Holds(Do(a, act, script), b, tk, f + AddedTo(a, act, script, b.id))
  {
    RunningReceiver(a, act, script);
    DoneSender(a, Do(a, act, script), b, tk, f, Do(a, act, script).out.frame);
  }

  // ---------- the receiver moves ----------

  lemma BarrierReceiverKnows(a: Proc, b: Proc, tk: Token, act: Action, script: seq<Order>)
    requires Ready(b, script) && Shaped(a) && a.n == b.n && a.id != b.id && BeliefsHold(a, b)
    requires Allowed(b, act, script) && (act.Start? || act.Skip? || act.PassStarted?)
    ensures ViewOf(a, Do(b, act, script), tk) == ViewOf(a, b, tk) && BeliefsHold(a, Do(b, act, script))
  {
  }

  /** Without a reception the receiver's view of the sender does not change. */
  lemma SilentReceiverKnows(a: Proc, b: Proc, tk: Token, act: Action, script: seq<Order>)
    requires Ready(b, script) && Shaped(a) && a.n == b.n && a.id != b.id && BeliefsHold(a, b)
    requires Allowed(b, act, script) && !act.Recv?
    ensures ViewOf(a, Do(b, act, script), tk) == ViewOf(a, b, tk) && BeliefsHold(a, Do(b, act, script))
  {
    if act.Start? || act.Skip? || act.PassStarted? { BarrierReceiverKnows(a, b, tk, act, script); }
  }

  lemma SilentReceiver(a: Proc, b: Proc, tk: Token, f: seq<Frame>, act: Action, script: seq<Order>)
    requires Ready(b, script) && Shaped(a) && a.n == b.n && a.id != b.id && Holds(a, b, tk, f)
    requires Allowed(b, act, script) && !act.Recv?
    ensures Holds(a, Do(b, act, script), tk, f)
  {
    SilentReceiverKnows(a, b, tk, act, script);
  }

  /** What a reception changes in the receiver's book-keeping. */
  lemma RunningReceiver(b: Proc, act: Action, script: seq<Order>)
    requires Hears(b, act, script) && b.pc.Running?
    ensures var b' := Do(b, act, script);
            && b'.pc == b.pc && b'.id == b.id && b'.collected == b.collected
            && b'.stopped == (b.stopped || act.msg.kind.STOP?)
            && b'.doneMask == if act.msg.kind.DONE? then b.doneMask[act.from := true] else b.doneMask
    ensures act.msg.kind.TRANSFER? || act.msg.kind.STOP? || act.msg.kind.DONE?
  {
  }

  lemma WaitingReceiver(b: Proc, act: Action, script: seq<Order>)
    requires Hears(b, act, script) && !b.pc.Running?
    ensures var b' := Do(b, act, script);
            && b'.id == b.id && b'.stopped == b.stopped && b'.doneMask == b.doneMask
            && match b.pc
               case AwaitStarted(peer) => b'.pc == AwaitStarted(peer + 1) && b'.collected == b.collected
                                          && act.from == peer && act.msg.kind.STARTED?
               case AwaitAck(k) => b'.pc == Issue(k + 1) && b'.collected == b.collected && act.msg.kind.ACK?
               case AwaitDone(peer) => b'.pc == AwaitDone(peer + 1) && b'.collected == b.collected
                                       && act.from == peer && act.msg.kind.DONE?
               case AwaitHistory(peer) =>
                 && b'.pc == AwaitHistory(peer + 1) && act.from == peer && act.msg.kind.BALANCE_HISTORY?
                 && act.msg.payload.Balances? && b'.collected == b.collected + [act.msg.payload.cells]
               case _ => false
  {
  }

  /** The receiver takes a frame from someone else. */
  lemma OtherwiseRunning(a: Proc, b: Proc, tk: Token, act: Action, script: seq<Order>)
    requires Hears(b, act, script) && Shaped(a) && a.n == b.n && a.id != b.id && b.pc.Running? && act.from != a.id
    requires BeliefsHold(a, b) && (act.msg.kind.STOP? ==> a.id != PARENT)
    ensures ViewOf(a, Do(b, act, script), tk) == ViewOf(a, b, tk) && BeliefsHold(a, Do(b, act, script))
  {
    RunningReceiver(b, act, script);
  }

  lemma OtherwiseWaiting(a: Proc, b: Proc, tk: Token, act: Action, script: seq<Order>)
    requires Hears(b, act, script) && Shaped(a) && a.n == b.n && a.id != b.id && !b.pc.Running? && act.from != a.id
    requires BeliefsHold(a, b)
    ensures ViewOf(a, Do(b, act, script), tk) == ViewOf(a, b, tk) && BeliefsHold(a, Do(b, act, script))
  {
    WaitingReceiver(b, act, script);
  }

  lemma OtherwiseEngaged(a: Proc, b: Proc, tk: Token, f: seq<Frame>, act: Action, script: seq<Order>)
    requires Hears(b, act, script) && Shaped(a) && a.n == b.n && a.id != b.id && Holds(a, b, tk, f)
    requires act.from != a.id
    requires b.pc.Running? && act.msg.kind.STOP? ==> a.id != PARENT
    ensures Holds(a, Do(b, act, script), tk, f)
  {
    if b.pc.Running? { OtherwiseRunning(a, b, tk, act, script); } else { OtherwiseWaiting(a, b, tk, act, script); }
  }

  /** The receiver takes the first frame of this link; the token moves on with it. */
  ghost predicate Taking(a: Proc, b: Proc, tk: Token, tk': Token, f: seq<Frame>, act: Action, script: seq<Order>) {
    && Hears(b, act, script) && Shaped(a) && a.n == b.n && a.id != b.id && Holds(a, b, tk, f)
    && act.from == a.id && f != [] && f[0] == act.msg
    && (act.msg.kind.TRANSFER? || act.msg.kind.ACK? ==> Carried(tk', a.id, b.id) == [])
    && (!(act.msg.kind.TRANSFER? || act.msg.kind.ACK?) ==> tk' == tk)
    && (!tk.None? && !tk'.None? ==> tk.order == tk'.order)
    && (tk'.None? ==> Carried(tk, a.id, b.id) != [TRANSFER])
  }

  lemma TakingRunning(a: Proc, b: Proc, tk: Token, tk': Token, f: seq<Frame>, act: Action, script: seq<Order>)
    requires Taking(a, b, tk, tk', f, act, script) && b.pc.Running?
    requires act.msg.kind.STOP? ==> a.id == PARENT
    ensures Holds(a, Do(b, act, script), tk', f[1..])
  {
    var b', v := Do(b, act, script), ViewOf(a, b, tk);
    RunningReceiver(b, act, script);
    TakeFirst(v, f);
    FramesFitLater(f, a, b, tk, tk');
    assert ViewOf(a, b', tk') == Rest(v);
  }

  lemma TakingWaiting(a: Proc, b: Proc, tk: Token, tk': Token, f: seq<Frame>, act: Action, script: seq<Order>)
    requires Taking(a, b, tk, tk', f, act, script) && !b.pc.Running?
    requires b.pc.AwaitHistory? ==> |b.collected| == b.pc.peer - 1
    ensures Holds(a, Do(b, act, script), tk', f[1..])
  {
    var b', v := Do(b, act, script), ViewOf(a, b, tk);
    WaitingReceiver(b, act, script);
    TakeFirst(v, f);
    FramesFitLater(f, a, b, tk, tk');
    assert f[0] in f;
    assert ViewOf(a, b', tk') == Rest(v);
    assert BeliefsHold(a, b');
  }
}
