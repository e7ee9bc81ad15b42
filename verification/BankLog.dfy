/** What the event log says about a run: the script in order, one departure and one
    arrival per order, each at the one time it has in every run. */
module BankLog {
  import opened BankProcess
  import opened BankSystem
  import opened BankInvariant
  import opened BankSteps
  import opened BankProgress
  import opened BankTimes

  // ---------- the lines ----------

  /** The time of the `x`-th line: the parent's request takes one send and one reception,
      the transfer another two, the acknowledgement two more. */
  function LineTime(n: nat, x: nat): int { n + 6 * (x / 2) + 4 + x % 2 }

  /** Line `x` belongs to order `x / 2`: first its departure, then its arrival, which
      carries the time of the departure. */
  predicate LineFits(n: nat, log: seq<Line>, script: seq<Order>, x: nat)
    requires x < |log|
  {
    && x / 2 < |script| && log[x].order == script[x / 2] && log[x].time == LineTime(n, x)
    && (x % 2 == 0 ==> log[x].Gone?)
    && (x % 2 == 1 ==> log[x].Arrived? && log[x].sent == LineTime(n, x - 1))
  }

  predicate Faithful(n: nat, log: seq<Line>, script: seq<Order>) {
    forall x: nat :: x < |log| ==> LineFits(n, log, script, x)
  }

  predicate Increasing(log: seq<Line>) {
    forall x: nat, y: nat :: x < y < |log| ==> log[x].time < log[y].time
  }

  lemma NextLine(n: nat, log: seq<Line>, script: seq<Order>, l: Line)
    requires Faithful(n, log, script) && LineFits(n, log + [l], script, |log|)
    ensures Faithful(n, log + [l], script)
  {
    var later := log + [l];
    forall x: nat | x < |later| ensures LineFits(n, later, script, x) {
      if x < |log| { assert LineFits(n, log, script, x); }
    }
  }

  lemma NoExtraLine(n: nat, log: seq<Line>, script: seq<Order>)
    requires Faithful(n, log, script)
    ensures |log| <= 2 * |script| && Increasing(log)
  {
    if log != [] { assert LineFits(n, log, script, |log| - 1); }
    forall x: nat, y: nat | x < y < |log| ensures log[x].time < log[y].time {
      assert LineFits(n, log, script, x) && LineFits(n, log, script, y);
    }
  }

  // ---------- the log of a state ----------

  function Stage(tk: Token): nat {
    match tk
    case None => 0
    case Told(_) => 0
    case Forwarded(_) => 1
    case Landed(_) => 2
  }

  ghost predicate Logged(g: Global, tk: Token)
    requires Formed(g)
  {
    && Faithful(g.n, g.log, g.script)
    && |g.log| == 2 * Completed(g.procs[0].pc, |g.script|) + Stage(tk)
  }

  /** Everything that holds in every state of every run. */
  ghost predicate Kept(g: Global, tk: Token) {
    Inv(g, tk) && AllTallied(g) && OnTime(g, tk) && Logged(g, tk)
  }

  /** Only the reception of a transfer adds a line. */
  lemma SilentStep(p: Proc, a: Action)
    requires Shaped(p) && (a.Recv? ==> a.from <= p.n)
    requires !(a.Recv? && p.pc.Running? && a.msg.kind.TRANSFER?)
    ensures NewLines(p, a) == []
  {
  }

  lemma LogStays(g: Global, s: Step)
    requires Formed(g) && Enabled(g, s) && !(s.a.Recv? && g.procs[s.k].pc.Running? && s.a.msg.kind.TRANSFER?)
    ensures Apply(g, s).log == g.log
  {
    SilentStep(g.procs[s.k], s.a);
    assert g.log + [] == g.log;
  }

  /** A transfer received: the line it logs. */
  lemma TransferReceived(g: Global, tk: Token, s: Step)
    requires Inv(g, tk) && Enabled(g, s) && OnTime(g, tk) && s.a.Recv?
    requires g.procs[s.k].pc.Running? && s.a.msg.kind.TRANSFER?
    ensures tk.Told? || tk.Forwarded?
    ensures var x := 2 * Completed(g.procs[0].pc, |g.script|);
            NewLines(g.procs[s.k], s.a) ==
            [if tk.Told? then Gone(tk.order, LineTime(g.n, x))
             else Arrived(tk.order, LineTime(g.n, x), LineTime(g.n, x + 1))]
  {
    Accepted(g, tk, s);
    TokenStep(g, tk, s);
    OrderIsValid(g, tk);
    HeadOnTime(g, tk, s);
    TransferOnTime(g, tk, s);
  }

  lemma TransferLogged(g: Global, tk: Token, s: Step)
    requires Inv(g, tk) && Enabled(g, s) && OnTime(g, tk) && Logged(g, tk) && s.a.Recv?
    requires g.procs[s.k].pc.Running? && s.a.msg.kind.TRANSFER?
    ensures Faithful(g.n, Apply(g, s).log, g.script) && |Apply(g, s).log| == |g.log| + 1
  {
    TransferReceived(g, tk, s);
    TransferOnTime(g, tk, s);
    NextLine(g.n, g.log, g.script, NewLines(g.procs[s.k], s.a)[0]);
  }

  lemma StepKeepsLogged(g: Global, tk: Token, s: Step)
    requires Inv(g, tk) && Enabled(g, s) && OnTime(g, tk) && Logged(g, tk)
    ensures Logged(Apply(g, s), NextToken(g.procs[s.k], s.a, tk, g.script))
  {
    TokenPaces(g, tk, s);
    if s.a.Recv? && g.procs[s.k].pc.Running? && s.a.msg.kind.TRANSFER? {
      TransferLogged(g, tk, s);
      TransferOnTime(g, tk, s);
      TokenStep(g, tk, s);
    } else {
      LogStays(g, s);
      TokenStep(g, tk, s);
    }
  }

  lemma StepKept(g: Global, tk: Token, s: Step)
    requires Kept(g, tk) && Enabled(g, s)
    ensures Kept(Apply(g, s), NextToken(g.procs[s.k], s.a, tk, g.script))
  {
    StepKeepsInv(g, tk, s);
    StepKeepsTallies(g, tk, s);
    StepKeepsOnTime(g, tk, s);
    StepKeepsLogged(g, tk, s);
  }

  lemma InitKept(n: nat, script: seq<Order>, opening: seq<int>)
    requires n >= 1 && ValidScript(n, script) && |opening| == n + 1
    ensures Kept(Initial(n, script, opening), None)
  {
    InitInv(n, script, opening);
    InitOnTime(n, script, opening);
    NoMarks(n + 1);
  }

  lemma {:induction false} KeptAlways(
      n: nat, script: seq<Order>, opening: seq<int>, states: seq<Global>, run: seq<Step>, t: nat) returns (tk: Token)
    requires Behaviour(n, script, opening, states, run) && t <= |run|
    ensures Kept(states[t], tk)
    ensures states[t].n == n && states[t].script == script && states[t].opening == opening
  {
    if t == 0 {
      InitKept(n, script, opening);
      tk := None;
    } else {
      var tk0 := KeptAlways(n, script, opening, states, run, t - 1);
      assert StepAt(states, run, t - 1);
      StepKept(states[t - 1], tk0, run[t - 1]);
      tk := NextToken(states[t - 1].procs[run[t - 1].k], run[t - 1].a, tk0, script);
    }
  }

  /** The log of any run follows the script order by order: order k departs at n + 6k + 4
      and arrives at n + 6k + 5 whatever the interleaving; after STOP it is complete. */
  lemma LogFollowsScript(
      n: nat, script: seq<Order>, opening: seq<int>, states: seq<Global>, run: seq<Step>, t: nat, x: nat)
    requires Behaviour(n, script, opening, states, run) && t <= |run|
    ensures Formed(states[t]) && Increasing(states[t].log) && |states[t].log| <= 2 * |script|
    ensures x < |states[t].log| ==> LineFits(n, states[t].log, script, x)
    ensures HasStopped(states[t].procs[0]) ==> |states[t].log| == 2 * |script|
  {
    var tk := KeptAlways(n, script, opening, states, run, t);
    NoExtraLine(n, states[t].log, script);
  }

  lemma ClockBounded(g: Global, tk: Token, k: nat)
    requires Kept(g, tk) && k <= g.n
    ensures g.procs[k].clock <= LastMoment(g.n, |g.script|) + (if k == 0 then g.n + 1 else 1)
    ensures k >= 1 ==> |g.procs[k].ledger| <= LastMoment(g.n, |g.script|) + 1
  {
    var f := PhaseOf(g, tk);
    StopsBounded(g, tk);
    LatestGrows(g.n, f.orders, f.stops, g.n);
    LatestGrows(g.n, f.orders, 0, g.n);
    LastMomentIs(g.n, f.orders);
    assert f.k <= f.orders by { NoExtraLine(g.n, g.log, g.script); }
    if k == 0 {
      assert ParentOnTime(f, g.procs[0]);
    } else {
      assert ChildOnTime(f, g.procs[k]) && ChildInv(g.procs[k], g.opening[k]);
      HeardOnlyStopped(g, tk, k);
    }
  }

  lemma StampBounded(g: Global, tk: Token, s: Step)
    requires Kept(g, tk) && Enabled(g, s) && s.a.Recv?
    ensures 0 <= s.a.msg.ts <= LastMoment(g.n, |g.script|) + 1
  {
    var f := PhaseOf(g, tk);
    HeadOf(g, tk, s);
    HeadOnTime(g, tk, s);
    StopsBounded(g, tk);
    LatestGrows(g.n, f.orders, f.stops, g.n);
    LatestGrows(g.n, f.orders, 0, g.n);
    LastMomentIs(g.n, f.orders);
    NoExtraLine(g.n, g.log, g.script);
  }

  /** No clock of an account and no cell of a history is ever beyond what the timetable
      allows, in any state of any run. */
  lemma ClocksOnTime(
      n: nat, script: seq<Order>, opening: seq<int>, states: seq<Global>, run: seq<Step>, t: nat, k: nat)
    requires Behaviour(n, script, opening, states, run) && t <= |run| && k <= n
    ensures Formed(states[t]) && states[t].n == n
    ensures states[t].procs[k].clock <= LastMoment(n, |script|) + (if k == 0 then n + 1 else 1)
    ensures k >= 1 ==> |states[t].procs[k].ledger| <= LastMoment(n, |script|) + 1
  {
    var tk := KeptAlways(n, script, opening, states, run, t);
    ClockBounded(states[t], tk, k);
  }
}
