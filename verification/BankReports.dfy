/** How far the histories reach: every frame an account sends finds its history extended
    to a length that the stamp of the frame fixes; a report has one cell for every time up
    to the moment of the report. */
module BankReports {
  import opened Wire
  import opened BankProcess
  import opened BankSystem
  import opened BankPath
  import opened BankPair
  import opened BankInvariant
  import opened BankSteps
  import opened BankTimes
  import opened BankLog

  /** The history of an account when the frame went out; a debit is booked at the stamp of
      the outgoing frame, everything else at the time before it. */
  predicate InStep(p: Proc, m: Frame) {
    match m.kind
    case TRANSFER => |p.ledger| == m.ts + 1
    case ACK => |p.ledger| == m.ts
    case DONE => p.pc.Running? ==> |p.ledger| == m.ts
    case BALANCE_HISTORY => |p.ledger| == m.ts == p.clock
    case _ => true
  }

  ghost predicate LinkInStep(g: Global, i: nat, j: nat)
    requires Formed(g) && i <= g.n && j <= g.n
  {
    forall m :: m in Link(g, i, j) ==> InStep(g.procs[i], m)
  }

  ghost predicate AllInStep(g: Global)
    requires Formed(g)
  {
    && (forall i :: 1 <= i <= g.n ==> Reaches(g.procs[i]))
    && forall i: nat, j: nat :: Pair(g, i, j) && i >= 1 ==> LinkInStep(g, i, j)
  }

  /** The frame an action stamps is in step with the history it leaves. */
  lemma StampInStep(p: Proc, a: Action, script: seq<Order>)
    requires Ready(p, script) && Allowed(p, a, script) && p.id != PARENT && Reaches(p)
    requires a.Recv? ==> Hears(p, a, script)
    ensures var out := Stamped(p, a, script); out.Sending? ==> InStep(Do(p, a, script), out.frame)
  {
  }

  lemma LedgerStays(p: Proc, a: Action, script: seq<Order>)
    requires Ready(p, script) && Allowed(p, a, script) && (a.Recv? ==> Hears(p, a, script))
    requires !a.Report? && !(a.Recv? && p.pc.Running? && (a.msg.kind.TRANSFER? || a.msg.kind.STOP?))
    ensures Do(p, a, script).ledger == p.ledger
  {
  }

  /** A stopped account's history changes only with its report. */
  lemma StoppedLedgerStays(g: Global, tk: Token, s: Step)
    requires Inv(g, tk) && Enabled(g, s) && s.k >= 1 && g.procs[s.k].stopped && !s.a.Report?
    ensures Do(g.procs[s.k], s.a, g.script).ledger == g.procs[s.k].ledger
    ensures Do(g.procs[s.k], s.a, g.script).pc == g.procs[s.k].pc
  {
    var p := g.procs[s.k];
    assert ChildInv(p, g.opening[s.k]);
    if s.a.Recv? {
      Accepted(g, tk, s);
      if !tk.None? { TokenMeansUp(g, tk, s.k); }
      RunningChildAccepts(g, tk, s);
      RunningReceiver(p, s.a, g.script);
    }
    LedgerStays(p, s.a, g.script);
  }

  /** While its part of a transfer is on the way, nothing else happens to an account. */
  lemma BusyLedgerStays(g: Global, tk: Token, s: Step, j: nat)
    requires Inv(g, tk) && Enabled(g, s) && s.k >= 1 && Pair(g, s.k, j) && Carried(tk, s.k, j) != []
    ensures Do(g.procs[s.k], s.a, g.script).ledger == g.procs[s.k].ledger
  {
    var p := g.procs[s.k];
    TokenMeansUp(g, tk, s.k);
    OrderIsValid(g, tk);
    if s.a.Recv? {
      Accepted(g, tk, s);
      if p.pc.Running? {
        RunningChildAccepts(g, tk, s);
        HeadOf(g, tk, s);
      }
    }
    LedgerStays(p, s.a, g.script);
  }

  lemma DoneMeansStopped(g: Global, tk: Token, i: nat, j: nat, m: Frame)
    requires Inv(g, tk) && Pair(g, i, j) && i >= 1 && m in Link(g, i, j) && m.kind.DONE?
    ensures g.procs[i].stopped
  {
    assert PairAt(g, tk, i, j);
    KindsPresent(Link(g, i, j));
  }

  /** What the actor has sent before stays in step. */
  lemma OldInStep(g: Global, tk: Token, s: Step, j: nat, m: Frame)
    requires Inv(g, tk) && Enabled(g, s) && s.k >= 1 && Pair(g, s.k, j)
    requires m in Link(g, s.k, j) && InStep(g.procs[s.k], m)
    ensures InStep(Do(g.procs[s.k], s.a, g.script), m)
  {
    var p := g.procs[s.k];
    assert PairAt(g, tk, s.k, j) && FrameFits(m, p, tk);
    match m.kind
    case BALANCE_HISTORY => assert p.pc.Reported? && s.a.Write?;
    case DONE =>
      DoneMeansStopped(g, tk, s.k, j, m);
      if !s.a.Report? { StoppedLedgerStays(g, tk, s); }
    case TRANSFER =>
      if Carried(tk, s.k, j) == [] { NoMoney(g, tk, s.k, j); }
      BusyLedgerStays(g, tk, s, j);
    case ACK =>
      if Carried(tk, s.k, j) == [] { NoMoney(g, tk, s.k, j); }
      BusyLedgerStays(g, tk, s, j);
    case _ =>
  }

  lemma ActorInStep(g: Global, tk: Token, s: Step, j: nat)
    requires Inv(g, tk) && Enabled(g, s) && s.k >= 1 && Pair(g, s.k, j)
    requires LinkInStep(g, s.k, j) && Reaches(g.procs[s.k])
    ensures LinkInStep(Apply(g, s), s.k, j)
  {
    StepMovesLinks(g, s, s.k, j);
    if s.a.Recv? { Accepted(g, tk, s); }
    StampInStep(g.procs[s.k], s.a, g.script);
    forall m | m in Link(Apply(g, s), s.k, j) ensures InStep(Apply(g, s).procs[s.k], m) {
      if m in Link(g, s.k, j) { OldInStep(g, tk, s, j, m); }
    }
  }

  /** Every step keeps all frames and histories in step. */
  lemma StepKeepsInStep(g: Global, tk: Token, s: Step)
    requires Inv(g, tk) && Enabled(g, s) && AllInStep(g)
    ensures AllInStep(Apply(g, s))
  {
    var h := Apply(g, s);
    if s.k >= 1 { DoReaches(g.procs[s.k], s.a, g.script); }
    forall i: nat, j: nat | Pair(h, i, j) && i >= 1 ensures LinkInStep(h, i, j) {
      assert LinkInStep(g, i, j);
      if i == s.k { ActorInStep(g, tk, s, j); } else { StepMovesLinks(g, s, i, j); }
    }
  }

  lemma InitInStep(n: nat, script: seq<Order>, opening: seq<int>)
    requires n >= 1 && ValidScript(n, script) && |opening| == n + 1
    ensures Formed(Initial(n, script, opening)) && AllInStep(Initial(n, script, opening))
  {
    var g := Initial(n, script, opening);
    assert Inv(g, None) by { InitInv(n, script, opening); }
    forall i: nat, j: nat | Pair(g, i, j) && i >= 1 ensures LinkInStep(g, i, j) { assert Link(g, i, j) == []; }
  }

  lemma {:induction false} InStepAlways(
      n: nat, script: seq<Order>, opening: seq<int>, states: seq<Global>, run: seq<Step>, t: nat) returns (tk: Token)
    requires Behaviour(n, script, opening, states, run) && t <= |run|
    ensures Kept(states[t], tk) && AllInStep(states[t])
  {
    tk := KeptAlways(n, script, opening, states, run, t);
    if t == 0 {
      InitInStep(n, script, opening);
    } else {
      var tk0 := InStepAlways(n, script, opening, states, run, t - 1);
      assert StepAt(states, run, t - 1);
      StepKeepsInStep(states[t - 1], tk0, run[t - 1]);
    }
  }

  /** A history under way has one cell for each time before its stamp, that is, up to and
      including the clock at the report. */
  lemma HistoriesReach(
      n: nat, script: seq<Order>, opening: seq<int>, states: seq<Global>, run: seq<Step>, t: nat,
      i: nat, j: nat, m: Frame)
    requires Behaviour(n, script, opening, states, run) && t <= |run| && i <= n && j <= n && i != j
    requires Formed(states[t]) && states[t].n == n && m in Link(states[t], i, j) && m.kind.BALANCE_HISTORY?
    ensures i >= 1 && m.payload.Balances? && m.payload.owner == i && |m.payload.cells| == m.ts
  {
    var tk := InStepAlways(n, script, opening, states, run, t);
    assert Pair(states[t], i, j) && PairAt(states[t], tk, i, j);
    assert FrameFits(m, states[t].procs[i], tk);
    if i >= 1 { assert LinkInStep(states[t], i, j); }
  }

  /** The same for the other frames of an account: a debit has been booked at the stamp of
      the order passed on, a credit and STOP at the time before the stamp of the answer. */
  lemma FramesInStep(
      n: nat, script: seq<Order>, opening: seq<int>, states: seq<Global>, run: seq<Step>, t: nat,
      i: nat, j: nat, m: Frame)
    requires Behaviour(n, script, opening, states, run) && t <= |run| && 1 <= i <= n && j <= n && i != j
    requires Formed(states[t]) && states[t].n == n && m in Link(states[t], i, j)
    ensures var cells := |states[t].procs[i].ledger|;
            && (m.kind.TRANSFER? ==> cells == m.ts + 1)
            && (m.kind.ACK? ==> cells == m.ts)
            && (m.kind.DONE? && states[t].procs[i].pc.Running? ==> cells == m.ts)
  {
    var tk := InStepAlways(n, script, opening, states, run, t);
    assert Pair(states[t], i, j) && LinkInStep(states[t], i, j);
  }

  // ---------- after the report ----------

  lemma ReportedRests(p: Proc, a: Action, script: seq<Order>)
    requires Ready(p, script) && Allowed(p, a, script) && p.pc.Reported?
    ensures Do(p, a, script).(out := Quiet) == p.(out := Quiet)
  {
  }

  lemma NextRests(g: Global, s: Step, k: nat)
    requires Formed(g) && Enabled(g, s) && k <= g.n && g.procs[k].pc.Reported?
    ensures Apply(g, s).procs[k].(out := Quiet) == g.procs[k].(out := Quiet)
  {
    if s.k == k { ReportedRests(g.procs[k], s.a, g.script); }
  }

  lemma StepRests(
      n: nat, script: seq<Order>, opening: seq<int>, states: seq<Global>, run: seq<Step>, t: nat, k: nat)
    requires Behaviour(n, script, opening, states, run) && t < |run| && k <= n
    requires Formed(states[t]) && states[t].n == n && states[t].procs[k].pc.Reported?
    ensures Formed(states[t + 1]) && states[t + 1].n == n
    ensures states[t + 1].procs[k].(out := Quiet) == states[t].procs[k].(out := Quiet)
  {
    assert StepAt(states, run, t);
    NextRests(states[t], run[t], k);
  }

  /** An account that has reported does nothing more than write its frame out. */
  lemma {:induction false} ReportedStays(
      n: nat, script: seq<Order>, opening: seq<int>, states: seq<Global>, run: seq<Step>, t: nat, x: nat, k: nat)
    requires Behaviour(n, script, opening, states, run) && t <= x <= |run| && k <= n
    requires Formed(states[t]) && states[t].n == n && states[t].procs[k].pc.Reported?
    ensures Formed(states[x]) && states[x].n == n
    ensures states[x].procs[k].(out := Quiet) == states[t].procs[k].(out := Quiet)
  {
    if t < x {
      ReportedStays(n, script, opening, states, run, t, x - 1, k);
      StepRests(n, script, opening, states, run, x - 1, k);
    }
  }

  lemma ReportStep(g: Global, tk: Token, s: Step)
    requires Inv(g, tk) && Enabled(g, s) && s.a.Report?
    ensures s.k >= 1
    ensures var p, q := g.procs[s.k], Apply(g, s).procs[s.k];
            q.pc.Reported? && |q.ledger| == p.clock + 1
  {
    assert s.k >= 1 ==> ChildInv(g.procs[s.k], g.opening[s.k]);
  }

  /** The history an account has reported has one cell for each time up to the clock at its
      report, whatever happens later. */
  lemma ReportedInFull(
      n: nat, script: seq<Order>, opening: seq<int>, states: seq<Global>, run: seq<Step>, t: nat, x: nat)
    requires Behaviour(n, script, opening, states, run) && t < x <= |run| && run[t].a.Report?
    ensures Formed(states[t]) && Formed(states[x]) && 1 <= run[t].k <= n && states[t].n == states[x].n == n
    ensures |states[x].procs[run[t].k].ledger| == states[t].procs[run[t].k].clock + 1
  {
    var tk := KeptAlways(n, script, opening, states, run, t);
    assert StepAt(states, run, t);
    ReportStep(states[t], tk, run[t]);
    ReportedStays(n, script, opening, states, run, t + 1, x, run[t].k);
  }
}
