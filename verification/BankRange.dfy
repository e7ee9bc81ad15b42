/** Which scripts the program can carry through: the exact condition under which no run
    of it ever meets a limit. */
module BankRange {
  import opened Wire
  import opened LedgerCells
  import opened BankProcess
  import opened BankLimits
  import opened BankSystem
  import opened BankInvariant
  import opened BankSteps
  import opened BankTimes
  import opened BankLog

  // ---------- runs of the program ----------

  /** The step meets a limit: the program ends in the middle of it. */
  ghost predicate Fatal(g: Global, s: Step)
    requires Formed(g) && Enabled(g, s)
  {
    MeetsLimit(g.procs[s.k], s.a)
  }

  ghost predicate Harmless(states: seq<Global>, run: seq<Step>, t: nat) {
    StepAt(states, run, t) && !Fatal(states[t], run[t])
  }

  /** A run of the program as it is, limits included: it has met none so far. */
  ghost predicate Execution(n: nat, script: seq<Order>, opening: seq<int>, states: seq<Global>, run: seq<Step>) {
    Behaviour(n, script, opening, states, run) && forall t: nat :: t < |run| ==> Harmless(states, run, t)
  }

  // ---------- the balances the script leads to ----------

  /** What line `x` of the log changes for account `i`. */
  function Share(script: seq<Order>, x: nat, i: nat): int
    requires x < 2 * |script|
  {
    var o := script[x / 2];
    if x % 2 == 0 then (if o.src == i then -o.amount else 0) else (if o.dst == i then o.amount else 0)
  }

  /** The balance of account `i` after the first `x` lines. */
  function Standing(opening: int, script: seq<Order>, x: nat, i: nat): int
    requires x <= 2 * |script|
  {
    if x == 0 then opening else Standing(opening, script, x - 1, i) + Share(script, x - 1, i)
  }

  /** The account line `x` is about. */
  function Holder(script: seq<Order>, x: nat): nat
    requires x < 2 * |script|
  {
    if x % 2 == 0 then script[x / 2].src else script[x / 2].dst
  }

  /** The history can record line `x`: its time, the balance after it, and on arrival the
      pending money before it. */
  predicate LineHolds(n: nat, script: seq<Order>, opening: seq<int>, x: nat)
    requires ValidScript(n, script) && |opening| == n + 1 && x < 2 * |script|
  {
    assert script[x / 2] in script;
    var i := Holder(script, x);
    && LineTime(n, x) <= 254
    && -32768 <= Standing(opening[i], script, x + 1, i) <= 32767
    && (x % 2 == 1 ==> script[x / 2].amount <= 32767)
  }

  /** What a caller can check before the run: the last logical time there can be, and the
      balances along the script. */
  predicate Representable(n: nat, script: seq<Order>, opening: seq<int>)
    requires ValidScript(n, script) && |opening| == n + 1
  {
    && LastMoment(n, |script|) <= 254
    && forall x: nat :: x < 2 * |script| ==> LineHolds(n, script, opening, x)
  }

  // ---------- the ledgers along the log ----------

  function Last(l: Cells): int
    requires l != []
  {
    l[|l| - 1].balance
  }

  lemma ExtendedLast(l: Cells, time: int)
    requires l != []
    ensures Last(Extended(l, time)) == Last(l)
    ensures time >= |l| - 1 >= 0 ==> Extended(l, time)[time].balance == Last(l)
  {
    ExtendedCells(l, time);
  }

  lemma DebitedLast(l: Cells, time: nat, amount: int)
    requires l != [] && time >= |l| - 1
    ensures Last(Debited(l, time, amount)) == Last(l) - amount
  {
    ExtendedLast(l, time);
  }

  lemma CreditedLast(l: Cells, sent: nat, received: nat, amount: int)
    requires l != [] && sent < received && received >= |l| - 1
    ensures Last(Credited(l, sent, received, amount)) == Last(l) + amount
  {
    ExtendedLast(l, received);
  }

  /** Every account stands where the lines logged so far have brought it. */
  ghost predicate AllStand(g: Global)
    requires Formed(g)
  {
    |g.log| <= 2 * |g.script|
    && forall i :: 1 <= i <= g.n ==> Last(g.procs[i].ledger) == Standing(g.opening[i], g.script, |g.log|, i)
  }

  /** What an account does to its current balance. */
  lemma ActorStands(p: Proc, a: Action, script: seq<Order>, opening: int)
    requires Ready(p, script) && p.id != PARENT && ChildInv(p, opening) && Allowed(p, a, script)
    requires a.Recv? ==> Hears(p, a, script)
    ensures var after := Last(Do(p, a, script).ledger);
            if a.Recv? && p.pc.Running? && a.msg.kind.TRANSFER?
            then after == Last(p.ledger) + (if SourceSide(p, a.from, a.msg.payload.order)
                                            then -a.msg.payload.order.amount else a.msg.payload.order.amount)
            else after == Last(p.ledger)
  {
    if a.Recv? && p.pc.Running? && a.msg.kind.TRANSFER? {
      var q, o := Moved(p, a.msg), a.msg.payload.order;
      if SourceSide(q, a.from, o) { DebitedLast(p.ledger, q.clock + 1, o.amount); }
      else { CreditedLast(p.ledger, a.msg.ts, q.clock, o.amount); }
    } else if a.Recv? && p.pc.Running? && a.msg.kind.STOP? {
      ExtendedLast(p.ledger, Moved(p, a.msg).clock);
    } else if a.Report? {
      ExtendedLast(p.ledger, p.clock);
    }
  }

  /** The transfer in progress is the order of the next line. */
  lemma NextLineIs(g: Global, tk: Token, s: Step)
    requires Kept(g, tk) && Enabled(g, s) && s.a.Recv? && g.procs[s.k].pc.Running? && s.a.msg.kind.TRANSFER?
    ensures var x := |g.log|;
            && x < 2 * |g.script|
            && s.a.msg.payload == BankProcess.Transfer(g.script[x / 2]) && s.k == Holder(g.script, x)
            && (tk.Told? <==> x % 2 == 0) && (SourceSide(g.procs[s.k], s.a.from, g.script[x / 2]) <==> tk.Told?)
            && Moved(g.procs[s.k], s.a.msg).clock == LineTime(g.n, x) - (if tk.Told? then 1 else 0)
            && (tk.Forwarded? ==> s.a.msg.ts == LineTime(g.n, x) - 1)
    ensures |Apply(g, s).log| == |g.log| + 1
  {
    TransferOnTime(g, tk, s);
    TransferLogged(g, tk, s);
    TokenStep(g, tk, s);
    OrderIsValid(g, tk);
    HeadOnTime(g, tk, s);
  }

  /** A line changes the balance of its own account and of no other. */
  lemma ShareOfOthers(script: seq<Order>, x: nat, i: nat)
    requires x < 2 * |script| && i != Holder(script, x)
    ensures Share(script, x, i) == 0
  {
  }

  lemma LineChanges(g: Global, tk: Token, s: Step)
    requires Kept(g, tk) && Enabled(g, s) && s.a.Recv? && g.procs[s.k].pc.Running? && s.a.msg.kind.TRANSFER?
    ensures |g.log| < 2 * |g.script| && s.k == Holder(g.script, |g.log|) && s.k >= 1
    ensures Last(Do(g.procs[s.k], s.a, g.script).ledger)
            == Last(g.procs[s.k].ledger) + Share(g.script, |g.log|, s.k)
  {
    var p := g.procs[s.k];
    Accepted(g, tk, s);
    NextLineIs(g, tk, s);
    assert s.k >= 1 && ChildInv(p, g.opening[s.k]);
    ActorStands(p, s.a, g.script, g.opening[s.k]);
  }

  lemma StandingMoves(g: Global, s: Step)
    requires Formed(g) && Enabled(g, s) && AllStand(g) && |g.log| < 2 * |g.script|
    requires s.k == Holder(g.script, |g.log|) && |Apply(g, s).log| == |g.log| + 1
    requires Last(Do(g.procs[s.k], s.a, g.script).ledger)
             == Last(g.procs[s.k].ledger) + Share(g.script, |g.log|, s.k)
    ensures AllStand(Apply(g, s))
  {
    var h, x := Apply(g, s), |g.log|;
    forall i | 1 <= i <= g.n ensures Last(h.procs[i].ledger) == Standing(g.opening[i], g.script, x + 1, i) {
      assert Last(g.procs[i].ledger) == Standing(g.opening[i], g.script, x, i);
      if i != s.k { ShareOfOthers(g.script, x, i); }
    }
  }

  lemma LineKeepsStanding(g: Global, tk: Token, s: Step)
    requires Kept(g, tk) && Enabled(g, s) && AllStand(g)
    requires s.a.Recv? && g.procs[s.k].pc.Running? && s.a.msg.kind.TRANSFER?
    ensures AllStand(Apply(g, s))
  {
    LineChanges(g, tk, s);
    TransferLogged(g, tk, s);
    StandingMoves(g, s);
  }

  lemma QuietStanding(g: Global, tk: Token, s: Step)
    requires Kept(g, tk) && Enabled(g, s) && AllStand(g)
    requires !(s.a.Recv? && g.procs[s.k].pc.Running? && s.a.msg.kind.TRANSFER?)
    ensures AllStand(Apply(g, s))
  {
    var p := g.procs[s.k];
    if s.a.Recv? { Accepted(g, tk, s); }
    LogStays(g, s);
    if s.k >= 1 {
      assert ChildInv(p, g.opening[s.k]);
      ActorStands(p, s.a, g.script, g.opening[s.k]);
    }
  }

  lemma StepKeepsStanding(g: Global, tk: Token, s: Step)
    requires Kept(g, tk) && Enabled(g, s) && AllStand(g)
    ensures AllStand(Apply(g, s))
  {
    if s.a.Recv? && g.procs[s.k].pc.Running? && s.a.msg.kind.TRANSFER? { LineKeepsStanding(g, tk, s); }
    else { QuietStanding(g, tk, s); }
  }

  lemma NextStands(states: seq<Global>, run: seq<Step>, t: nat, tk: Token) returns (tk': Token)
    requires StepAt(states, run, t) && Kept(states[t], tk) && AllStand(states[t])
    ensures Kept(states[t + 1], tk') && AllStand(states[t + 1])
    ensures var g, h := states[t], states[t + 1]; h.n == g.n && h.script == g.script && h.opening == g.opening
  {
    StepKept(states[t], tk, run[t]);
    StepKeepsStanding(states[t], tk, run[t]);
    tk' := NextToken(states[t].procs[run[t].k], run[t].a, tk, states[t].script);
  }

  lemma {:induction false} StandsAlways(
      n: nat, script: seq<Order>, opening: seq<int>, states: seq<Global>, run: seq<Step>, t: nat) returns (tk: Token)
    requires Behaviour(n, script, opening, states, run) && t <= |run|
    ensures Kept(states[t], tk) && AllStand(states[t])
    ensures states[t].n == n && states[t].script == script && states[t].opening == opening
  {
    if t == 0 {
      InitKept(n, script, opening);
      tk := None;
    } else {
      var tk0 := StandsAlways(n, script, opening, states, run, t - 1);
      assert StepAt(states, run, t - 1);
      tk := NextStands(states, run, t - 1, tk0);
    }
  }

  // ---------- when a step meets a limit ----------

  lemma DebitEnds(l: Cells, time: int, amount: int)
    requires l != [] && time >= |l| - 1
    ensures CannotDebit(l, time, amount) <==> time >= UINT8_MAX || !Int16(Last(l) - amount)
  {
    if time >= 0 { ExtendedLast(l, time); }
  }

  /** Nothing else is pending while a transfer is on its way. */
  lemma CreditEnds(l: Cells, sent: int, amount: int)
    requires l != [] && sent >= |l| - 1 && l[|l| - 1].pending == 0
    ensures CannotCredit(l, sent, sent + 1, amount) <==>
            sent + 1 >= UINT8_MAX || !Int16(Last(l) + amount) || !Int16(amount)
  {
    ExtendedLast(l, sent + 1);
    ExtendedCells(l, sent + 1);
    assert Extended(l, sent + 1)[sent].pending == 0;
  }

  /** The same for one account: `x` is the line it is about to log. */
  lemma LineEnds(p: Proc, a: Action, n: nat, script: seq<Order>, opening: seq<int>, x: nat)
    requires ValidScript(n, script) && |opening| == n + 1 && x < 2 * |script| && p.id == Holder(script, x) && p.id >= 1
    requires Hears(p, a, script) && p.n == n && p.pc.Running? && a.msg.kind.TRANSFER? && ChildInv(p, opening[p.id])
    requires a.msg.payload == BankProcess.Transfer(script[x / 2]) && a.msg.ts >= 0
    requires SourceSide(p, a.from, script[x / 2]) <==> x % 2 == 0
    requires Moved(p, a.msg).clock == LineTime(n, x) - (if x % 2 == 0 then 1 else 0)
    requires x % 2 == 1 ==> a.msg.ts == LineTime(n, x) - 1
    requires Last(p.ledger) == Standing(opening[p.id], script, x, p.id)
    ensures LedgerStops(p, a) <==> !LineHolds(n, script, opening, x)
  {
    var o := script[x / 2];
    assert Standing(opening[p.id], script, x + 1, p.id) == Last(p.ledger) + Share(script, x, p.id);
    if x % 2 == 0 { DebitEnds(p.ledger, LineTime(n, x), o.amount); }
    else { CreditEnds(p.ledger, a.msg.ts, o.amount); }
  }

  /** The reception of a transfer meets a limit exactly when its line cannot be recorded. */
  lemma TransferEnds(g: Global, tk: Token, s: Step)
    requires Kept(g, tk) && Enabled(g, s) && AllStand(g)
    requires s.a.Recv? && g.procs[s.k].pc.Running? && s.a.msg.kind.TRANSFER?
    ensures |g.log| < 2 * |g.script|
    ensures Fatal(g, s) <==> !LineHolds(g.n, g.script, g.opening, |g.log|)
  {
    var p := g.procs[s.k];
    Accepted(g, tk, s);
    NextLineIs(g, tk, s);
    LineChanges(g, tk, s);
    StampNotNegative(g, tk, s);
    assert ChildInv(p, g.opening[s.k]);
    LineEnds(p, s.a, g.n, g.script, g.opening, |g.log|);
    LedgerComesFirst(p, s.a);
  }

  lemma StampNotNegative(g: Global, tk: Token, s: Step)
    requires Inv(g, tk) && Enabled(g, s) && s.a.Recv?
    ensures s.a.msg.ts >= 0
  {
    HeadOf(g, tk, s);
  }

  /** A clock at its limit is far beyond what a history can represent. */
  lemma LedgerComesFirst(p: Proc, a: Action)
    requires Shaped(p) && p.clock >= 0 && a.Recv? && a.from <= p.n && p.pc.Running? && a.msg.kind.TRANSFER?
    requires !Rejected(Moved(p, a.msg), a.from, a.msg) && a.msg.ts >= 0
    ensures ClockStops(p, a) ==> LedgerStops(p, a)
  {
  }

  // ---------- the closing phase ----------

  lemma StopInTime(g: Global, tk: Token, s: Step)
    requires Kept(g, tk) && Enabled(g, s) && s.a.Recv? && s.k >= 1
    requires g.procs[s.k].pc.Running? && s.a.msg.kind.STOP?
    ensures Moved(g.procs[s.k], s.a.msg).clock <= LastMoment(g.n, |g.script|)
  {
    var f := PhaseOf(g, tk);
    ClosingOnTime(g, tk, s);
    LatestGrows(f.n, f.orders, f.stops + 1, f.n);
    LastMomentIs(f.n, f.orders);
  }

  lemma HistoryFits(g: Global, tk: Token, s: Step)
    requires Kept(g, tk) && Enabled(g, s) && s.a.Recv? && g.procs[s.k].pc.AwaitHistory?
    requires s.a.msg.payload.Balances?
    ensures |s.a.msg.payload.cells| <= LastMoment(g.n, |g.script|) + 1
  {
    HeadOf(g, tk, s);
    ParentAccepts(g, tk, s);
    ClockBounded(g, tk, s.a.from);
  }

  lemma ActionFits(g: Global, tk: Token, s: Step)
    requires Kept(g, tk) && Enabled(g, s) && !s.a.Recv? && LastMoment(g.n, |g.script|) <= 254
    ensures !Fatal(g, s)
  {
    assert s.k >= 1 ==> ChildInv(g.procs[s.k], g.opening[s.k]);
    ClockBounded(g, tk, s.k);
    if s.a.Report? { ReportInTime(g, tk, s.k); }
  }

  lemma ReceptionInClock(g: Global, tk: Token, s: Step)
    requires Kept(g, tk) && Enabled(g, s) && s.a.Recv? && g.n <= LastMoment(g.n, |g.script|) <= 254
    ensures !ClockStops(g.procs[s.k], s.a)
  {
    ClockBounded(g, tk, s.k);
    StampBounded(g, tk, s);
  }

  lemma ReceptionInLedger(g: Global, tk: Token, s: Step)
    requires Kept(g, tk) && Enabled(g, s) && s.a.Recv? && LastMoment(g.n, |g.script|) <= 254
    requires !(g.procs[s.k].pc.Running? && s.a.msg.kind.TRANSFER?)
    ensures !LedgerStops(g.procs[s.k], s.a)
  {
    var p := g.procs[s.k];
    Accepted(g, tk, s);
    if p.pc.AwaitHistory? { HistoryFits(g, tk, s); }
    if p.pc.Running? && s.a.msg.kind.STOP? { StopInTime(g, tk, s); }
  }

  lemma FewAccounts(n: nat, orders: nat)
    ensures n <= LastMoment(n, orders)
  {
    assert n * (n + 5) >= 0;
  }

  lemma ReceptionFits(g: Global, tk: Token, s: Step)
    requires Kept(g, tk) && Enabled(g, s) && s.a.Recv? && LastMoment(g.n, |g.script|) <= 254
    requires !(g.procs[s.k].pc.Running? && s.a.msg.kind.TRANSFER?)
    ensures !Fatal(g, s)
  {
    FewAccounts(g.n, |g.script|);
    ReceptionInClock(g, tk, s);
    ReceptionInLedger(g, tk, s);
  }

  /** Under the condition no step of any run meets a limit. */
  lemma NoLimitMet(
      n: nat, script: seq<Order>, opening: seq<int>, states: seq<Global>, run: seq<Step>, t: nat, s: Step)
    requires Behaviour(n, script, opening, states, run) && t <= |run| && Representable(n, script, opening)
    ensures Formed(states[t])
    ensures Enabled(states[t], s) ==> !Fatal(states[t], s)
  {
    var g := states[t];
    var tk := StandsAlways(n, script, opening, states, run, t);
    if Enabled(g, s) {
      if s.a.Recv? && g.procs[s.k].pc.Running? && s.a.msg.kind.TRANSFER? { TransferEnds(g, tk, s); }
      else if s.a.Recv? { ReceptionFits(g, tk, s); }
      else { ActionFits(g, tk, s); }
    }
  }

  /** Under the condition the runs of the program are all the runs there are. */
  lemma EveryRunIsOne(n: nat, script: seq<Order>, opening: seq<int>, states: seq<Global>, run: seq<Step>)
    requires Behaviour(n, script, opening, states, run) && Representable(n, script, opening)
    ensures Execution(n, script, opening, states, run)
  {
    forall t: nat | t < |run| ensures Harmless(states, run, t) {
      assert StepAt(states, run, t);
      NoLimitMet(n, script, opening, states, run, t, run[t]);
    }
  }

  lemma StaysBefore(g: Global, tk: Token, s: Step, x: nat)
    requires Kept(g, tk) && AllStand(g) && Enabled(g, s) && !Fatal(g, s) && |g.log| <= x
    requires x < 2 * |g.script| && !LineHolds(g.n, g.script, g.opening, x)
    ensures |Apply(g, s).log| <= x
  {
    if s.a.Recv? && g.procs[s.k].pc.Running? && s.a.msg.kind.TRANSFER? {
      TransferEnds(g, tk, s);
      TransferLogged(g, tk, s);
    } else {
      LogStays(g, s);
    }
  }

  lemma NextStaysBefore(
      n: nat, script: seq<Order>, opening: seq<int>, states: seq<Global>, run: seq<Step>, t: nat, x: nat)
    requires Execution(n, script, opening, states, run) && t < |run| && |states[t].log| <= x
    requires x < 2 * |script| && !LineHolds(n, script, opening, x)
    ensures |states[t + 1].log| <= x
  {
    assert Harmless(states, run, t);
    var tk := StandsAlways(n, script, opening, states, run, t);
    StaysBefore(states[t], tk, run[t], x);
  }

  lemma {:induction false} LogStaysBefore(
      n: nat, script: seq<Order>, opening: seq<int>, states: seq<Global>, run: seq<Step>, t: nat, x: nat)
    requires Execution(n, script, opening, states, run) && t <= |run|
    requires x < 2 * |script| && !LineHolds(n, script, opening, x)
    ensures |states[t].log| <= x
  {
    if t > 0 {
      LogStaysBefore(n, script, opening, states, run, t - 1, x);
      NextStaysBefore(n, script, opening, states, run, t - 1, x);
    }
  }

  /** A line that cannot be recorded never is: no run of the program gets beyond it, and
      STOP is never sent. */
  lemma LineNeverPassed(
      n: nat, script: seq<Order>, opening: seq<int>, states: seq<Global>, run: seq<Step>, t: nat, x: nat)
    requires Execution(n, script, opening, states, run) && t <= |run|
    requires x < 2 * |script| && !LineHolds(n, script, opening, x)
    ensures Formed(states[t]) && |states[t].log| <= x && !HasStopped(states[t].procs[0])
  {
    LogStaysBefore(n, script, opening, states, run, t, x);
    var tk := KeptAlways(n, script, opening, states, run, t);
  }
}
