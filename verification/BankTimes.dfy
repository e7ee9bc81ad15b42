/** The clocks of the bank.  Up to STOP every clock value that matters is fixed by the
    script; from STOP on it depends on who hears whom first, and is bounded. */
module BankTimes {
  import opened Wire
  import opened BankProcess
  import opened BankSystem
  import opened BankPair
  import opened BankInvariant
  import opened BankSteps
  import opened BankSafety
  import opened BankProgress

  // ---------- the timetable ----------

  /** Orders the parent has finished with. */
  function Completed(pc: Pc, orders: nat): nat {
    match pc
    case AwaitStarted(_) => 0
    case Issue(k) => k
    case AwaitAck(k) => k
    case _ => orders
  }

  /** The stamp of STOP. */
  function StopStamp(n: nat, orders: nat): int { n + 2 + 6 * orders }

  /** The latest possible stamp of the `k`-th DONE: its sender may have taken in all those
      before it, and STOP, first. */
  function Latest(n: nat, orders: nat, k: nat): int {
    if k == 0 then StopStamp(n, orders) else Latest(n, orders, k - 1) + k + 1
  }

  /** The latest logical time any history of any run has to represent. */
  function LastMoment(n: nat, orders: nat): int { n + 1 + 6 * orders + n * (n + 5) / 2 }

  lemma {:induction false} LatestIs(n: nat, orders: nat, k: nat)
    ensures 2 * Latest(n, orders, k) == 2 * StopStamp(n, orders) + k * (k + 3)
  {
    if k > 0 {
      LatestIs(n, orders, k - 1);
      assert k * (k + 3) == (k - 1) * (k + 2) + 2 * k + 2;
    }
  }

  /** The last DONE, and then the DONEs of all the others. */
  lemma LastMomentIs(n: nat, orders: nat)
    ensures LastMoment(n, orders) == Latest(n, orders, n) + n - 1
  {
    LatestIs(n, orders, n);
    assert n * (n + 5) == n * (n + 3) + 2 * n;
  }

  lemma {:induction false} LatestGrows(n: nat, orders: nat, k: nat, l: nat)
    requires k <= l
    ensures Latest(n, orders, k) + l - k <= Latest(n, orders, l)
  {
    if k < l { LatestGrows(n, orders, k, l - 1); }
  }

  /** Where a run stands: orders completed, the transfer in progress, and from STOP on how
      many accounts have stopped. */
  datatype Phase = Phase(n: nat, orders: nat, k: nat, tk: Token, closing: bool, stops: nat)

  function StopMarks(procs: seq<Proc>): seq<bool> {
    seq(|procs|, i requires 0 <= i < |procs| => procs[i].stopped)
  }

  ghost function PhaseOf(g: Global, tk: Token): Phase
    requires Formed(g)
  {
    var pc := g.procs[0].pc;
    Phase(g.n, |g.script|, Completed(pc, |g.script|), tk, HasStopped(g.procs[0]), Marks(StopMarks(g.procs)))
  }

  /** The stamp of the frame that carries the transfer in progress. */
  function TokenStamp(f: Phase): int {
    f.n + 6 * f.k + match f.tk case None => 0 case Told(_) => 2 case Forwarded(_) => 4 case Landed(_) => 6
  }

  /** No account is later than this before STOP. */
  function Level(f: Phase): int {
    f.n + 6 * f.k + match f.tk case None => 0 case Told(_) => 0 case Forwarded(_) => 4 case Landed(_) => 6
  }

  predicate ChildOnTime(f: Phase, p: Proc)
    requires Shaped(p)
  {
    match p.pc
    case Boot => p.clock == 0
    case AwaitStarted(peer) => p.clock == if p.id < peer then peer - 1 else peer
    case Running => p.clock <= if f.closing then Latest(f.n, f.orders, f.stops) + p.doneCount else Level(f)
    case Reported => p.clock <= LastMoment(f.n, f.orders) + 1 && |p.ledger| <= LastMoment(f.n, f.orders) + 1
    case _ => true
  }

  predicate ParentOnTime(f: Phase, p: Proc) {
    match p.pc
    case AwaitStarted(peer) => p.clock == if peer == 1 then 0 else peer
    case Issue(k) => p.clock == f.n + 1 + 6 * k && k <= f.orders
    case AwaitAck(k) => p.clock == f.n + 2 + 6 * k
    case AwaitDone(peer) => p.clock <= Latest(f.n, f.orders, f.stops) + peer - 1
    case AwaitHistory(peer) => p.clock <= LastMoment(f.n, f.orders) + peer
    case _ => p.clock <= LastMoment(f.n, f.orders) + f.n + 1
  }

  predicate StampOnTime(f: Phase, m: Frame) {
    match m.kind
    case STARTED => m.ts == 1
    case TRANSFER | ACK => !f.tk.None? && m.ts == TokenStamp(f)
    case STOP => m.ts == StopStamp(f.n, f.orders)
    case DONE => m.ts <= Latest(f.n, f.orders, f.stops)
    case _ => m.ts <= LastMoment(f.n, f.orders) + 1
  }

  predicate LinkOnTime(f: Phase, frames: seq<Frame>) { forall m :: m in frames ==> StampOnTime(f, m) }

  ghost predicate OnTime(g: Global, tk: Token)
    requires Formed(g)
  {
    var f := PhaseOf(g, tk);
    && ParentOnTime(f, g.procs[0])
    && (forall i :: 1 <= i <= g.n ==> ChildOnTime(f, g.procs[i]))
    && (forall i: nat, j: nat :: Pair(g, i, j) ==> LinkOnTime(f, Link(g, i, j)))
  }

  // ---------- what one action does to clock and marks ----------

  lemma HeardClock(p: Proc, a: Action, script: seq<Order>)
    requires Hears(p, a, script)
    ensures var q, c := Do(p, a, script), Later(p.clock, a.msg.ts);
            if Answers(p, a.msg) then
              q.clock == c + 1 && q.out.Sending? && q.out.frame.ts == c + 1
              && (a.msg.kind.STOP? ==> q.out.frame.kind.DONE?)
              && (a.msg.kind.TRANSFER? ==> MovesMoney(q.out.frame))
            else q.clock == c && q.out.Quiet?
    ensures p.pc.Running? ==>
              Do(p, a, script).doneCount == p.doneCount + if a.msg.kind.DONE? then 1 else 0
  {
  }

  lemma ActedClock(p: Proc, a: Action, script: seq<Order>)
    requires Ready(p, script) && Allowed(p, a, script) && !a.Recv?
    ensures var q := Do(p, a, script);
            && q.clock == (if Stamps(a) then p.clock + 1 else p.clock)
            && q.doneCount == p.doneCount && q.stopped == p.stopped
            && (Stamps(a) ==> q.out.Sending? && q.out.frame.ts == p.clock + 1)
    ensures var q := Do(p, a, script);
            && (a.Start? ==> q.out.frame.kind.STARTED? && q.pc == AwaitStarted(1))
            && (a.Report? ==> q.out.frame.kind.BALANCE_HISTORY? && q.pc.Reported? && p.pc.Running?)
            && (a.Instruct? ==> q.out.frame.kind.TRANSFER? && q.pc == AwaitAck(p.pc.k))
            && (a.Stop? ==> q.out.frame.kind.STOP? && q.pc == AwaitDone(1))
            && (a.Write? ==> q == WriteNext(p))
  {
  }

  /** Every mark of one row is a mark of the other. */
  lemma {:induction false} MarksMonotone(a: seq<bool>, b: seq<bool>)
    requires |a| == |b| && forall i :: 0 <= i < |a| ==> a[i] ==> b[i]
    ensures Marks(a) <= Marks(b)
  {
    if a != [] { MarksMonotone(a[..|a| - 1], b[..|b| - 1]); }
  }

  /** An account has heard DONE only of accounts that have stopped. */
  lemma HeardOnlyStopped(g: Global, tk: Token, j: nat)
    requires Inv(g, tk) && AllTallied(g) && 1 <= j <= g.n
    ensures g.procs[j].doneCount <= Marks(StopMarks(g.procs))
    ensures g.procs[j].doneCount <= g.n - 1
  {
    var p := g.procs[j];
    assert ChildInv(p, g.opening[j]) && Tallied(p);
    MarksComplete(p.doneMask, j);
    forall i | 0 <= i <= g.n ensures p.doneMask[i] ==> StopMarks(g.procs)[i] {
      if i != 0 && i != j { assert PairAt(g, tk, i, j); }
    }
    MarksMonotone(p.doneMask, StopMarks(g.procs));
  }

  lemma StopsBounded(g: Global, tk: Token)
    requires Inv(g, tk)
    ensures Marks(StopMarks(g.procs)) <= g.n
    ensures forall j :: 1 <= j <= g.n && !g.procs[j].stopped ==> Marks(StopMarks(g.procs)) <= g.n - 1
  {
    var marks := StopMarks(g.procs);
    assert !marks[0];
    MarksBounded(marks[0 := true]);
    MarkOne(marks, 0);
    forall j | 1 <= j <= g.n && !g.procs[j].stopped ensures Marks(marks) <= g.n - 1 {
      MarksComplete(marks, j);
    }
  }

  /** A step stops at most the acting account. */
  lemma StepStops(g: Global, tk: Token, s: Step)
    requires Inv(g, tk) && Enabled(g, s)
    ensures Marks(StopMarks(Apply(g, s).procs)) ==
            Marks(StopMarks(g.procs)) + if TakesStop(s.a) && g.procs[s.k].pc.Running? then 1 else 0
  {
    var p, marks, marks' := g.procs[s.k], StopMarks(g.procs), StopMarks(Apply(g, s).procs);
    assert marks' == marks[s.k := Do(p, s.a, g.script).stopped];
    if s.a.Recv? {
      Accepted(g, tk, s);
      if p.pc.Running? { RunningReceiver(p, s.a, g.script); } else { WaitingReceiver(p, s.a, g.script); }
      if p.pc.Running? && s.a.msg.kind.STOP? {
        assert !p.stopped;
        MarkOne(marks, s.k);
      } else {
        assert marks' == marks;
      }
    } else {
      ActedClock(p, s.a, g.script);
      assert marks' == marks;
    }
  }

  // ---------- the run moves on ----------

  predicate Onward(f: Phase, f': Phase) {
    && f'.n == f.n && f'.orders == f.orders && f.stops <= f'.stops && (f.closing ==> f'.closing)
    && (!f'.closing ==> Level(f) <= Level(f'))
    && (!f.closing && f'.closing ==> Level(f) <= StopStamp(f.n, f.orders))
  }

  /** What an action of the parent does to the count of orders. */
  lemma ParentCounts(p: Proc, a: Action, script: seq<Order>)
    requires Ready(p, script) && Allowed(p, a, script) && p.id == PARENT && !p.pc.Failed?
    requires a.Recv? ==> Hears(p, a, script)
    requires p.pc.Issue? ==> p.pc.k <= |script|
    requires p.pc.AwaitAck? ==> p.pc.k < |script|
    ensures var q := Do(p, a, script);
            && Completed(q.pc, |script|) == Completed(p.pc, |script|) + (if a.Recv? && p.pc.AwaitAck? then 1 else 0)
            && HasStopped(q) == (HasStopped(p) || a.Stop?)
            && (a.Stop? ==> Completed(p.pc, |script|) == |script|)
  {
    if a.Recv? { WaitingReceiver(p, a, script); } else { ActedClock(p, a, script); }
  }

  /** How far the transfers are, and what the token says about it. */
  predicate KeepsPace(k: nat, tk: Token, k': nat, tk': Token) {
    || (k' == k && tk' == tk) || (k' == k && tk.None? && tk'.Told?) || (k' == k && tk.Told? && tk'.Forwarded?)
    || (k' == k && tk.Forwarded? && tk'.Landed?) || (k' == k + 1 && tk.Landed? && tk'.None?)
  }

  lemma TokenPaces(g: Global, tk: Token, s: Step)
    requires Inv(g, tk) && Enabled(g, s) && OnTime(g, tk)
    ensures var tk', orders := NextToken(g.procs[s.k], s.a, tk, g.script), |g.script|;
            && KeepsPace(Completed(g.procs[0].pc, orders), tk, Completed(Apply(g, s).procs[0].pc, orders), tk')
            && HasStopped(Apply(g, s).procs[0]) == (HasStopped(g.procs[0]) || s.a.Stop?)
            && (s.a.Stop? ==> s.k == 0 && Completed(g.procs[0].pc, orders) == orders && tk.None?)
  {
    TokenStep(g, tk, s);
    if s.k == 0 {
      if s.a.Recv? { Accepted(g, tk, s); }
      ParentCounts(g.procs[0], s.a, g.script);
    }
  }

  lemma PhaseMoves(g: Global, tk: Token, s: Step)
    requires Inv(g, tk) && Enabled(g, s) && OnTime(g, tk)
    ensures var f, f' := PhaseOf(g, tk), PhaseOf(Apply(g, s), NextToken(g.procs[s.k], s.a, tk, g.script));
            && Onward(f, f') && KeepsPace(f.k, f.tk, f'.k, f'.tk)
            && f'.tk == NextToken(g.procs[s.k], s.a, tk, g.script)
            && f'.closing == (f.closing || s.a.Stop?)
            && f'.stops == f.stops + (if TakesStop(s.a) && g.procs[s.k].pc.Running? then 1 else 0)
            && (s.a.Stop? ==> s.k == 0 && f.k == f.orders)
  {
    TokenPaces(g, tk, s);
    StepStops(g, tk, s);
  }

  lemma BystanderOnTime(f: Phase, f': Phase, p: Proc)
    requires Shaped(p) && Onward(f, f')
    ensures ChildOnTime(f, p) ==> ChildOnTime(f', p)
    ensures ParentOnTime(f, p) ==> ParentOnTime(f', p)
  {
    LatestGrows(f.n, f.orders, f.stops, f'.stops);
    LatestGrows(f.n, f.orders, 0, f'.stops);
  }

  lemma StampStays(f: Phase, f': Phase, m: Frame)
    requires Onward(f, f') && StampOnTime(f, m) && (MovesMoney(m) ==> f'.tk == f.tk && f'.k == f.k)
    ensures StampOnTime(f', m)
  {
    LatestGrows(f.n, f.orders, f.stops, f'.stops);
  }

  /** What an action stamps, if it stamps anything, is on time. */
  ghost predicate SendsOnTime(f: Phase, p: Proc, a: Action, script: seq<Order>)
    requires Ready(p, script) && Allowed(p, a, script)
  {
    var out := Stamped(p, a, script);
    out.Sending? ==> StampOnTime(f, out.frame)
  }

  // ---------- an account acts ----------

  lemma ChildActs(f: Phase, f': Phase, p: Proc, a: Action, script: seq<Order>)
    requires Ready(p, script) && Allowed(p, a, script) && !a.Recv? && p.id != PARENT && p.n == f.n
    requires ChildOnTime(f, p) && Onward(f, f')
    requires a.Report? ==> p.clock <= LastMoment(f.n, f.orders) && |p.ledger| <= LastMoment(f.n, f.orders) + 1
    ensures ChildOnTime(f', Do(p, a, script)) && SendsOnTime(f', p, a, script)
  {
    ActedClock(p, a, script);
    BystanderOnTime(f, f', p);
    LatestGrows(f.n, f.orders, 0, f'.stops);
  }

  /** An account that is through with its loop is not later than the last moment. */
  lemma ReportInTime(g: Global, tk: Token, j: nat)
    requires Inv(g, tk) && OnTime(g, tk) && AllTallied(g) && 1 <= j <= g.n
    requires g.procs[j].pc.Running? && g.procs[j].stopped
    ensures g.procs[j].clock <= LastMoment(g.n, |g.script|) && |g.procs[j].ledger| <= LastMoment(g.n, |g.script|) + 1
  {
    var p, f := g.procs[j], PhaseOf(g, tk);
    assert ChildOnTime(f, p) && ChildInv(p, g.opening[j]);
    assert PairAt(g, tk, 0, j);
    HeardOnlyStopped(g, tk, j);
    StopsBounded(g, tk);
    LatestGrows(f.n, f.orders, f.stops, f.n);
    LastMomentIs(f.n, f.orders);
  }

  // ---------- an account hears ----------

  lemma HeadOnTime(g: Global, tk: Token, s: Step)
    requires Inv(g, tk) && Enabled(g, s) && OnTime(g, tk) && s.a.Recv?
    ensures StampOnTime(PhaseOf(g, tk), s.a.msg)
  {
    StepMovesLinks(g, s, s.a.from, s.k);
    assert LinkOnTime(PhaseOf(g, tk), Link(g, s.a.from, s.k));
  }

  /** The two ends of a transfer, at times the script fixes. */
  lemma TransferOnTime(g: Global, tk: Token, s: Step)
    requires Inv(g, tk) && Enabled(g, s) && OnTime(g, tk) && s.a.Recv?
    requires g.procs[s.k].pc.Running? && s.a.msg.kind.TRANSFER?
    ensures s.k >= 1 && g.procs[0].pc.AwaitAck? && (tk.Told? || tk.Forwarded?)
    ensures var f := PhaseOf(g, tk);
            Later(g.procs[s.k].clock, s.a.msg.ts) == f.n + 6 * f.k + if tk.Told? then 3 else 5
  {
    var f := PhaseOf(g, tk);
    TokenStep(g, tk, s);
    OrderIsValid(g, tk);
    TokenMeansUp(g, tk, s.k);
    HeadOnTime(g, tk, s);
    assert ChildOnTime(f, g.procs[s.k]);
  }

  /** STOP and DONE: an account cannot be later than those it has heard of allow. */
  lemma ClosingOnTime(g: Global, tk: Token, s: Step)
    requires Inv(g, tk) && Enabled(g, s) && OnTime(g, tk) && AllTallied(g) && s.a.Recv? && s.k >= 1
    requires g.procs[s.k].pc.Running? && !s.a.msg.kind.TRANSFER?
    ensures var f, p := PhaseOf(g, tk), g.procs[s.k];
            && f.closing
            && (s.a.msg.kind.STOP? || s.a.msg.kind.DONE?)
            && (s.a.msg.kind.STOP? ==> f.stops < f.n && !p.stopped)
            && Later(p.clock, s.a.msg.ts)
               <= Latest(f.n, f.orders, f.stops) + 1 + (if s.a.msg.kind.STOP? then f.stops else p.doneCount)
  {
    var f, p := PhaseOf(g, tk), g.procs[s.k];
    RunningChildAccepts(g, tk, s);
    HeadOnTime(g, tk, s);
    HeadOf(g, tk, s);
    assert ChildOnTime(f, p);
    HeardOnlyStopped(g, tk, s.k);
    StopsBounded(g, tk);
    LatestGrows(f.n, f.orders, 0, f.stops);
    if s.a.from >= 1 { assert PairAt(g, tk, 0, s.a.from); }
  }

  /** What an account in its main loop makes of the clock it has after hearing a frame. */
  lemma ChildHears(f': Phase, p: Proc, a: Action, script: seq<Order>)
    requires Hears(p, a, script) && p.pc.Running?
    requires var c := Later(p.clock, a.msg.ts);
      match a.msg.kind
      case TRANSFER => !f'.closing && !f'.tk.None? && c + 1 == TokenStamp(f') && c + 1 <= Level(f')
      case STOP => f'.closing && f'.stops >= 1 && c + 1 <= Latest(f'.n, f'.orders, f'.stops)
      case _ => f'.closing && c <= Latest(f'.n, f'.orders, f'.stops) + p.doneCount + 1
    ensures Do(p, a, script).pc.Running? ==> ChildOnTime(f', Do(p, a, script))
    ensures Do(p, a, script).pc == p.pc
    ensures SendsOnTime(f', p, a, script)
  {
    HeardClock(p, a, script);
    RunningReceiver(p, a, script);
  }

  lemma TransferKeepsTime(g: Global, tk: Token, s: Step, f': Phase)
    requires Inv(g, tk) && Enabled(g, s) && OnTime(g, tk) && s.a.Recv?
    requires g.procs[s.k].pc.Running? && s.a.msg.kind.TRANSFER?
    requires f' == PhaseOf(Apply(g, s), NextToken(g.procs[s.k], s.a, tk, g.script))
    ensures ChildOnTime(f', Do(g.procs[s.k], s.a, g.script))
    ensures SendsOnTime(f', g.procs[s.k], s.a, g.script)
  {
    PhaseMoves(g, tk, s);
    Accepted(g, tk, s);
    TransferOnTime(g, tk, s);
    ChildHears(f', g.procs[s.k], s.a, g.script);
  }

  lemma ClosingKeepsTime(g: Global, tk: Token, s: Step, f': Phase)
    requires Inv(g, tk) && Enabled(g, s) && OnTime(g, tk) && AllTallied(g) && s.a.Recv? && s.k >= 1
    requires g.procs[s.k].pc.Running? && !s.a.msg.kind.TRANSFER?
    requires f' == PhaseOf(Apply(g, s), NextToken(g.procs[s.k], s.a, tk, g.script))
    ensures ChildOnTime(f', Do(g.procs[s.k], s.a, g.script))
    ensures SendsOnTime(f', g.procs[s.k], s.a, g.script)
  {
    var f := PhaseOf(g, tk);
    PhaseMoves(g, tk, s);
    Accepted(g, tk, s);
    ClosingOnTime(g, tk, s);
    assert s.a.msg.kind.STOP? ==> Latest(f.n, f.orders, f'.stops) == Latest(f.n, f.orders, f.stops) + f.stops + 2;
    ChildHears(f', g.procs[s.k], s.a, g.script);
  }

  lemma StartingKeepsTime(g: Global, tk: Token, s: Step, f': Phase)
    requires Inv(g, tk) && Enabled(g, s) && OnTime(g, tk) && s.k >= 1 && s.a.Recv? && !g.procs[s.k].pc.Running?
    ensures ChildOnTime(f', Do(g.procs[s.k], s.a, g.script))
    ensures SendsOnTime(f', g.procs[s.k], s.a, g.script)
  {
    var p, f := g.procs[s.k], PhaseOf(g, tk);
    Accepted(g, tk, s);
    HeardClock(p, s.a, g.script);
    assert ChildOnTime(f, p) && ChildInv(p, g.opening[s.k]);
    WaitingReceiver(p, s.a, g.script);
    HeadOnTime(g, tk, s);
  }

  // ---------- the parent ----------

  lemma ParentHearsOnTime(g: Global, tk: Token, s: Step, f': Phase)
    requires Inv(g, tk) && Enabled(g, s) && OnTime(g, tk) && s.k == 0 && s.a.Recv?
    requires f' == PhaseOf(Apply(g, s), NextToken(g.procs[0], s.a, tk, g.script))
    ensures ParentOnTime(f', Do(g.procs[0], s.a, g.script))
    ensures SendsOnTime(f', g.procs[0], s.a, g.script)
  {
    var p, f := g.procs[0], PhaseOf(g, tk);
    PhaseMoves(g, tk, s);
    assert ParentOnTime(f, p);
    LatestGrows(f.n, f.orders, 0, f'.stops);
    TokenStep(g, tk, s);
    Accepted(g, tk, s);
    HeardClock(p, s.a, g.script);
    WaitingReceiver(p, s.a, g.script);
    HeadOnTime(g, tk, s);
  }

  lemma ParentActs(f: Phase, f': Phase, p: Proc, a: Action, script: seq<Order>)
    requires Ready(p, script) && Allowed(p, a, script) && !a.Recv? && p.id == PARENT && p.n == f.n
    requires ParentOnTime(f, p) && Onward(f, f') && f'.k == f.k && (a.Stop? ==> f.k == f.orders == |script|)
    requires p.pc.Issue? ==> f.k == p.pc.k
    requires a.Instruct? ==> f'.tk.Told?
    requires f.stops <= f.n
    ensures ParentOnTime(f', Do(p, a, script)) && SendsOnTime(f', p, a, script)
  {
    ActedClock(p, a, script);
    BystanderOnTime(f, f', p);
    LatestGrows(f.n, f.orders, 0, f'.stops);
    if a.PassDone? {
      LatestGrows(f.n, f.orders, f.stops, f.n);
      LastMomentIs(f.n, f.orders);
    }
  }

  lemma StepOnTime(g: Global, tk: Token, s: Step, f': Phase)
    requires Inv(g, tk) && Enabled(g, s) && OnTime(g, tk) && AllTallied(g)
    requires f' == PhaseOf(Apply(g, s), NextToken(g.procs[s.k], s.a, tk, g.script))
    ensures if s.k == 0 then ParentOnTime(f', Do(g.procs[0], s.a, g.script))
            else ChildOnTime(f', Do(g.procs[s.k], s.a, g.script))
    ensures SendsOnTime(f', g.procs[s.k], s.a, g.script)
  {
    var f := PhaseOf(g, tk);
    PhaseMoves(g, tk, s);
    TokenStep(g, tk, s);
    if s.k == 0 {
      if s.a.Recv? {
        ParentHearsOnTime(g, tk, s, f');
      } else {
        StopsBounded(g, tk);
        ParentActs(f, f', g.procs[0], s.a, g.script);
      }
    } else {
      assert ChildOnTime(f, g.procs[s.k]);
      if !s.a.Recv? {
        if s.a.Report? { ReportInTime(g, tk, s.k); }
        ChildActs(f, f', g.procs[s.k], s.a, g.script);
      }
      else if !g.procs[s.k].pc.Running? { StartingKeepsTime(g, tk, s, f'); }
      else if s.a.msg.kind.TRANSFER? { TransferKeepsTime(g, tk, s, f'); }
      else { ClosingKeepsTime(g, tk, s, f'); }
    }
  }

  // ---------- the links ----------

  /** A link the transfer in progress is not on holds no frame of a transfer. */
  lemma NoMoney(g: Global, tk: Token, i: nat, j: nat)
    requires Inv(g, tk) && Pair(g, i, j) && Carried(tk, i, j) == []
    ensures forall m :: m in Link(g, i, j) ==> !MovesMoney(m)
  {
    assert PairAt(g, tk, i, j);
    TransferNeedsToken(ViewOf(g.procs[i], g.procs[j], tk), Link(g, i, j));
  }

  /** When the transfer in progress moves on, its next link was free of transfers. */
  lemma NextLinkFree(g: Global, tk: Token, s: Step, i: nat, j: nat, m: Frame)
    requires Inv(g, tk) && Enabled(g, s) && Pair(g, i, j) && m in Link(g, i, j) && MovesMoney(m)
    requires var tk' := NextToken(g.procs[s.k], s.a, tk, g.script);
             Inv(Apply(g, s), tk') && m in Link(Apply(g, s), i, j)
    ensures NextToken(g.procs[s.k], s.a, tk, g.script) == tk
  {
    var h, tk' := Apply(g, s), NextToken(g.procs[s.k], s.a, tk, g.script);
    TokenStep(g, tk, s);
    if tk' != tk {
      if Carried(tk', i, j) == [] {
        assert Pair(h, i, j);
        NoMoney(h, tk', i, j);
      } else {
        OrderIsValid(h, tk');
        NoMoney(g, tk, i, j);
      }
    }
  }

  lemma LinkStaysOnTime(g: Global, tk: Token, s: Step, i: nat, j: nat)
    requires Inv(g, tk) && Enabled(g, s) && OnTime(g, tk) && AllTallied(g) && Pair(g, i, j)
    requires var tk' := NextToken(g.procs[s.k], s.a, tk, g.script); Inv(Apply(g, s), tk')
    ensures LinkOnTime(PhaseOf(Apply(g, s), NextToken(g.procs[s.k], s.a, tk, g.script)), Link(Apply(g, s), i, j))
  {
    var h, f := Apply(g, s), PhaseOf(g, tk);
    var f' := PhaseOf(h, NextToken(g.procs[s.k], s.a, tk, g.script));
    PhaseMoves(g, tk, s);
    StepMovesLinks(g, s, i, j);
    forall m | m in Link(h, i, j) ensures StampOnTime(f', m) {
      if m in Link(g, i, j) {
        assert LinkOnTime(f, Link(g, i, j));
        if MovesMoney(m) { NextLinkFree(g, tk, s, i, j, m); }
        TokenStep(g, tk, s);
        StampStays(f, f', m);
      } else {
        assert i == s.k && m in AddedTo(g.procs[i], s.a, g.script, j);
        StepOnTime(g, tk, s, f');
      }
    }
  }

  /** Every step keeps every clock and every stamp on time. */
  lemma StepKeepsOnTime(g: Global, tk: Token, s: Step)
    requires Inv(g, tk) && Enabled(g, s) && OnTime(g, tk) && AllTallied(g)
    ensures OnTime(Apply(g, s), NextToken(g.procs[s.k], s.a, tk, g.script))
  {
    var h, tk', f := Apply(g, s), NextToken(g.procs[s.k], s.a, tk, g.script), PhaseOf(g, tk);
    var f' := PhaseOf(h, tk');
    StepKeepsInv(g, tk, s);
    PhaseMoves(g, tk, s);
    StepOnTime(g, tk, s, f');
    if s.k != 0 { BystanderOnTime(f, f', g.procs[0]); }
    forall i | 1 <= i <= g.n ensures ChildOnTime(f', h.procs[i]) {
      assert ChildOnTime(f, g.procs[i]);
      if i != s.k { BystanderOnTime(f, f', g.procs[i]); }
    }
    forall i: nat, j: nat | Pair(h, i, j) ensures LinkOnTime(f', Link(h, i, j)) { LinkStaysOnTime(g, tk, s, i, j); }
  }

  lemma InitOnTime(n: nat, script: seq<Order>, opening: seq<int>)
    requires n >= 1 && ValidScript(n, script) && |opening| == n + 1
    ensures Formed(Initial(n, script, opening)) && OnTime(Initial(n, script, opening), None)
  {
    var g := Initial(n, script, opening);
    assert Inv(g, None) by { InitInv(n, script, opening); }
    forall i: nat, j: nat | Pair(g, i, j) ensures LinkOnTime(PhaseOf(g, None), Link(g, i, j)) {
      assert Link(g, i, j) == [];
    }
  }
}
