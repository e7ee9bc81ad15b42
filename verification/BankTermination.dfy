/** What is left to do goes down by one with every step of the bank, so that every run
    that meets no limit takes the same number of steps and ends in the same place. */
module BankTermination {
  import opened Wire
  import opened Sums
  import opened BankProcess
  import opened BankSystem
  import opened BankInvariant
  import opened BankSteps
  import opened BankLog
  import opened BankRange
  import opened BankProgress

  /** Writes still to do for the frame being sent. */
  function Pending(o: Out): int {
    if o.Sending? then o.last - o.next + 1 else 0
  }

  /** From the barrier on: an account. */
  function AfterStart(p: Proc): int {
    if p.pc.Reported? then 0
    else (if p.stopped then 0 else p.n + 2) + (p.n - 1 - p.doneCount) + 2
  }

  function ChildWork(p: Proc): int {
    Pending(p.out) + match p.pc
    case Boot => 1 + (p.n + 1) + (p.n + 1) + AfterStart(p)
    case AwaitStarted(peer) => p.n + 2 - peer + AfterStart(p)
    case _ => AfterStart(p)
  }

  /** Steps around one transfer: order, two receptions, acknowledgement, and a write for
      each of the three frames. */
  const TRANSFER_STEPS: int := 7

  /** From STOP on: the parent. */
  function Closing(p: Proc): int { 1 + (p.n + 1) + (p.n + 1) + (p.n + 1) }

  function ParentWork(p: Proc, orders: nat): int {
    Pending(p.out) + match p.pc
    case AwaitStarted(peer) => p.n + 2 - peer + TRANSFER_STEPS * orders + Closing(p)
    case Issue(k) => TRANSFER_STEPS * (orders - k) + Closing(p)
    case AwaitAck(k) => TRANSFER_STEPS * (orders - k - 1) + Closing(p)
    case AwaitDone(peer) => p.n + 2 - peer + (p.n + 1)
    case AwaitHistory(peer) => p.n + 2 - peer
    case _ => 0
  }

  /** Steps the transfer in progress still causes, apart from the write being done. */
  function TokenWork(tk: Token): int {
    match tk
    case None => 0
    case Told(_) => 5
    case Forwarded(_) => 3
    case Landed(_) => 1
  }

  function WorkOf(p: Proc, orders: nat): int {
    if p.id == PARENT then ParentWork(p, orders) else ChildWork(p)
  }

  ghost function Works(g: Global): seq<int>
    requires Formed(g)
  {
    seq(g.n + 1, i requires 0 <= i <= g.n => WorkOf(g.procs[i], |g.script|))
  }

  ghost function Left(g: Global, tk: Token): int
    requires Formed(g)
  {
    Sum(Works(g)) + TokenWork(tk)
  }

  /** One step of one process, together with the token: one less to do. */
  lemma ActingPays(p: Proc, a: Action, tk: Token, script: seq<Order>)
    requires Ready(p, script) && Allowed(p, a, script) && !a.Recv?
    requires p.id != PARENT ==> p.doneCount <= p.n - 1
    requires p.id == PARENT ==> ParentInv(p, tk, script)
    requires p.id == PARENT && p.pc.Issue? ==> p.pc.k <= |script|
    ensures var tk' := NextToken(p, a, tk, script);
            WorkOf(Do(p, a, script), |script|) + TokenWork(tk') == WorkOf(p, |script|) + TokenWork(tk) - 1
  {
  }

  lemma HearingPays(p: Proc, a: Action, tk: Token, script: seq<Order>)
    requires Hears(p, a, script)
    requires p.id == PARENT ==> ParentInv(p, tk, script) && (p.pc.AwaitAck? ==> tk.Landed?)
    requires p.id != PARENT && a.msg.kind.TRANSFER? ==>
               p.pc.Running? && (tk.Told? || tk.Forwarded?)
               && (SourceSide(p, a.from, a.msg.payload.order) <==> tk.Told?)
    ensures var tk' := NextToken(p, a, tk, script);
            WorkOf(Do(p, a, script), |script|) + TokenWork(tk') == WorkOf(p, |script|) + TokenWork(tk) - 1
  {
  }

  lemma StepPays(g: Global, tk: Token, s: Step)
    requires Kept(g, tk) && Enabled(g, s)
    ensures var tk', p := NextToken(g.procs[s.k], s.a, tk, g.script), g.procs[s.k];
            WorkOf(Do(p, s.a, g.script), |g.script|) + TokenWork(tk') == WorkOf(p, |g.script|) + TokenWork(tk) - 1
  {
    var p := g.procs[s.k];
    assert s.k >= 1 ==> ChildInv(p, g.opening[s.k]) && Tallied(p);
    if s.a.Recv? {
      Accepted(g, tk, s);
      TokenStep(g, tk, s);
      if !tk.None? { OrderIsValid(g, tk); }
      HearingPays(p, s.a, tk, g.script);
    } else {
      if s.k >= 1 { MarksComplete(p.doneMask, s.k); }
      NoExtraLine(g.n, g.log, g.script);
      ActingPays(p, s.a, tk, g.script);
    }
  }

  /** What is left goes down by exactly one. */
  lemma StepLeaves(g: Global, tk: Token, s: Step)
    requires Kept(g, tk) && Enabled(g, s)
    ensures Left(Apply(g, s), NextToken(g.procs[s.k], s.a, tk, g.script)) == Left(g, tk) - 1
  {
    var h, v := Apply(g, s), WorkOf(Do(g.procs[s.k], s.a, g.script), |g.script|);
    StepPays(g, tk, s);
    assert Works(h) == Works(g)[s.k := v];
    SumUpdate(Works(g), s.k, v);
  }

  /** Steps of a complete run. */
  function RunLength(n: nat, orders: nat): int {
    4 * n * n + 10 * n + 5 + TRANSFER_STEPS * orders
  }

  lemma {:induction false} SumOfEqual(s: seq<int>, v: int)
    requires forall i :: 0 <= i < |s| ==> s[i] == v
    ensures Sum(s) == |s| * v
  {
    if s != [] { SumOfEqual(s[..|s| - 1], v); }
  }

  lemma InitWork(n: nat, script: seq<Order>, opening: seq<int>)
    requires n >= 1 && ValidScript(n, script) && |opening| == n + 1
    ensures Formed(Initial(n, script, opening)) && AllTallied(Initial(n, script, opening))
    ensures Left(Initial(n, script, opening), None) == RunLength(n, |script|)
  {
    var g := Initial(n, script, opening);
    assert Inv(g, None) by { InitInv(n, script, opening); }
    NoMarks(n + 1);
    var c, w := 4 * n + 6, Works(g);
    assert w[0 := c] == seq(n + 1, _ => c);
    SumUpdate(w, 0, c);
    SumOfEqual(w[0 := c], c);
    assert (n + 1) * c == 4 * n * n + 10 * n + 6;
  }

  lemma NextLeft(states: seq<Global>, run: seq<Step>, t: nat, tk: Token) returns (tk': Token)
    requires StepAt(states, run, t) && Kept(states[t], tk)
    ensures Kept(states[t + 1], tk') && Left(states[t + 1], tk') == Left(states[t], tk) - 1
    ensures var g, h := states[t], states[t + 1]; h.n == g.n && h.script == g.script && h.opening == g.opening
  {
    var g, s := states[t], run[t];
    StepKept(g, tk, s);
    StepLeaves(g, tk, s);
    tk' := NextToken(g.procs[s.k], s.a, tk, g.script);
  }

  lemma {:induction false} LeftAlways(
      n: nat, script: seq<Order>, opening: seq<int>, states: seq<Global>, run: seq<Step>, t: nat) returns (tk: Token)
    requires Behaviour(n, script, opening, states, run) && t <= |run|
    ensures Kept(states[t], tk)
    ensures states[t].n == n && states[t].script == script && states[t].opening == opening
    ensures t + Left(states[t], tk) == RunLength(n, |script|)
  {
    if t == 0 {
      InitKept(n, script, opening);
      InitWork(n, script, opening);
      tk := None;
    } else {
      var tk0 := LeftAlways(n, script, opening, states, run, t - 1);
      assert StepAt(states, run, t - 1);
      tk := NextLeft(states, run, t - 1, tk0);
    }
  }

  lemma WorkNotNegative(g: Global, tk: Token, i: nat)
    requires Kept(g, tk) && i <= g.n
    ensures WorkOf(g.procs[i], |g.script|) >= 0
  {
    if i == 0 {
      NoExtraLine(g.n, g.log, g.script);
    } else {
      assert ChildInv(g.procs[i], g.opening[i]) && Tallied(g.procs[i]);
      MarksComplete(g.procs[i].doneMask, i);
    }
  }

  lemma StuckOwesNothing(g: Global, tk: Token)
    requires Inv(g, tk) && AllTallied(g) && Stuck(g)
    ensures Left(g, tk) == 0
  {
    StalledNoToken(g, tk);
    StuckParent(g, tk);
    forall i | 0 <= i <= g.n ensures Works(g)[i] == 0 {
      StalledIsIdle(g, i);
      if i >= 1 { StuckHasReported(g, tk, i); }
    }
    SumZero(Works(g));
  }

  /** No run is longer than RunLength, and it is that long exactly when no step at all is
      enabled, be it one that meets a limit. */
  lemma Lengths(n: nat, script: seq<Order>, opening: seq<int>, states: seq<Global>, run: seq<Step>)
    requires Behaviour(n, script, opening, states, run)
    ensures Formed(states[|run|]) && |run| <= RunLength(n, |script|)
    ensures |run| == RunLength(n, |script|) <==> Stuck(states[|run|])
  {
    var tk := LeftAlways(n, script, opening, states, run, |run|);
    var g := states[|run|];
    forall i: nat | i <= n ensures Works(g)[i] >= 0 { WorkNotNegative(g, tk, i); }
    SumNonNegative(Works(g));
    if Stuck(g) {
      StuckOwesNothing(g, tk);
    } else {
      var s :| Enabled(g, s);
      MovableOwes(g, tk, s);
    }
  }

  /** An account in its main loop takes a frame only until it has STOP and everybody's DONE. */
  lemma HearsOnlyServing(
      n: nat, script: seq<Order>, opening: seq<int>, states: seq<Global>, run: seq<Step>, t: nat)
    requires Behaviour(n, script, opening, states, run) && t < |run| && run[t].a.Recv?
    ensures Formed(states[t]) && states[t].n == n && run[t].k <= n
    ensures var p, k := states[t].procs[run[t].k], run[t].k;
            p.pc.Running? ==> !p.stopped || exists i :: 1 <= i <= n && i != k && !p.doneMask[i]
  {
    var tk := KeptAlways(n, script, opening, states, run, t);
    assert StepAt(states, run, t);
    var g, k := states[t], run[t].k;
    if k >= 1 && g.procs[k].pc.Running? && g.procs[k].stopped {
      assert ChildInv(g.procs[k], g.opening[k]) && Tallied(g.procs[k]);
      MarksComplete(g.procs[k].doneMask, k);
    }
  }

  lemma MovableOwes(g: Global, tk: Token, s: Step)
    requires Kept(g, tk) && Enabled(g, s)
    ensures Left(g, tk) >= 1
  {
    var h, tk' := Apply(g, s), NextToken(g.procs[s.k], s.a, tk, g.script);
    StepKept(g, tk, s);
    StepLeaves(g, tk, s);
    forall i: nat | i <= h.n ensures Works(h)[i] >= 0 { WorkNotNegative(h, tk', i); }
    SumNonNegative(Works(h));
  }

  /** The program cannot go on: whatever step is left would meet a limit. */
  ghost predicate Halted(g: Global)
    requires Formed(g)
  {
    forall s :: Enabled(g, s) ==> Fatal(g, s)
  }

  /** No run of the program is longer than RunLength, whatever limits it meets.  A script
      whose times and balances the histories can hold is always carried through: the
      program cannot go on exactly when the run is that long. */
  lemma Termination(n: nat, script: seq<Order>, opening: seq<int>, states: seq<Global>, run: seq<Step>)
    requires Execution(n, script, opening, states, run)
    ensures Formed(states[|run|]) && |run| <= RunLength(n, |script|)
    ensures |run| == RunLength(n, |script|) ==> Halted(states[|run|])
    ensures Representable(n, script, opening) ==> (Halted(states[|run|]) <==> |run| == RunLength(n, |script|))
  {
    var g := states[|run|];
    Lengths(n, script, opening, states, run);
    if Representable(n, script, opening) && Halted(g) {
      forall s ensures !Enabled(g, s) { NoLimitMet(n, script, opening, states, run, |run|, s); }
    }
  }

  /** Where a run of the program ends, unless a limit ends it: the parent is through, every
      account has stopped, heard DONE from all others and reported, and no frame is left
      anywhere.  For a representable script it is the only end there is. */
  lemma FinalState(
      n: nat, script: seq<Order>, opening: seq<int>, states: seq<Global>, run: seq<Step>, i: nat, j: nat)
    requires Execution(n, script, opening, states, run) && Formed(states[|run|]) && Halted(states[|run|])
    requires 1 <= i <= n && j <= n
    ensures states[|run|].n == n
    ensures Representable(n, script, opening) || |run| == RunLength(n, |script|) ==>
              var g := states[|run|];
              && g.procs[0].pc.Exited? && g.procs[i].pc.Reported? && g.procs[i].stopped
              && AllOthersMarked(g.procs[i].doneMask, i)
              && g.chan[i][j] == [] && g.chan[0][i] == []
              && |g.log| == 2 * |script|
  {
    var tk := LeftAlways(n, script, opening, states, run, |run|);
    if Representable(n, script, opening) || |run| == RunLength(n, |script|) {
      Termination(n, script, opening, states, run);
      Lengths(n, script, opening, states, run);
      StuckIsFinal(states[|run|], tk, i, j);
    }
  }

  lemma StuckIsFinal(g: Global, tk: Token, i: nat, j: nat)
    requires Kept(g, tk) && Stuck(g) && 1 <= i <= g.n && j <= g.n
    ensures g.procs[0].pc.Exited? && g.procs[i].pc.Reported? && g.procs[i].stopped
    ensures AllOthersMarked(g.procs[i].doneMask, i) && g.chan[i][j] == [] && g.chan[0][i] == []
    ensures |g.log| == 2 * |g.script|
  {
    StalledNoToken(g, tk);
    StuckParent(g, tk);
    StuckHasReported(g, tk, i);
    StuckHasStopped(g, tk, i);
    assert Pair(g, 0, i);
    StuckLinksEmpty(g, tk, 0, i);
    if j != i { StuckLinksEmpty(g, tk, i, j); }
  }
}
