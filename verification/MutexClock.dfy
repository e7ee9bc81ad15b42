/** The scalar clocks: they respect causality, and they stay below the number of
    communication events, which keeps them inside int16 for up to 14 children. */
module MutexClock {
  import opened Wire
  import opened MutexProcess
  import opened MutexSystem
  import opened MutexInvariant
  import opened MutexCost
  import opened MutexCounts
  import opened MutexMessages

  // ---------- range ----------

  predicate OutWithin(p: Proc, top: int) {
    p.out.Sending? ==> 0 <= p.out.frame.ts <= top
  }

  ghost predicate Within(g: Global, top: int)
    requires Formed(g)
  {
    && (forall i :: 0 <= i <= g.n ==> 0 <= g.procs[i].clock <= top && OutWithin(g.procs[i], top))
    && (forall i, j, m :: 0 <= i <= g.n && 0 <= j <= g.n && m in g.chan[i][j] ==> 0 <= m.ts <= top)
  }

  lemma ReceptionWithin(p: Proc, from: nat, m: Msg, top: int)
    requires Shaped(p) && Allowed(p, Recv(from, m)) && 0 <= p.clock <= top && 0 <= m.ts <= top
    ensures var q, top' := Do(p, Recv(from, m)), top + Price(EVENT, p, Recv(from, m));
            0 <= q.clock <= top' && OutWithin(q, top')
  {
    ReplyOnly(p, from, m);
  }

  lemma ActionWithin(p: Proc, a: Action, top: int)
    requires Shaped(p) && Allowed(p, a)
    requires 0 <= p.clock <= top && OutWithin(p, top)
    requires a.Recv? ==> 0 <= a.msg.ts <= top
    ensures var q, top' := Do(p, a), top + Price(EVENT, p, a);
            0 <= q.clock <= top' && OutWithin(q, top')
  {
    if a.Recv? { ReceptionWithin(p, a.from, a.msg, top); }
  }

  lemma StepWithin(g: Global, s: Step, top: int)
    requires Formed(g) && Enabled(g, s) && Within(g, top)
    ensures Within(Apply(g, s), top + Price(EVENT, g.procs[s.k], s.a))
  {
    var p, h, top' := g.procs[s.k], Apply(g, s), top + Price(EVENT, g.procs[s.k], s.a);
    if s.a.Recv? { assert s.a.msg in g.chan[s.a.from][s.k]; }
    ActionWithin(p, s.a, top);
    forall i, j, m | 0 <= i <= g.n && 0 <= j <= g.n && m in h.chan[i][j] ensures 0 <= m.ts <= top' {
      if m !in g.chan[i][j] { assert s.a.Write? && m == p.out.frame; }
    }
  }

  lemma SuccessorState(n: nat, states: seq<Global>, run: seq<Step>, t: nat)
    requires Behaviour(n, states, run) && t < |run|
    ensures Formed(states[t]) && Enabled(states[t], run[t]) && states[t + 1] == Apply(states[t], run[t])
    ensures Formed(states[t + 1]) && states[t + 1].n == states[t].n
  {
    assert StepAt(states, run, t);
  }

  lemma NextWithin(n: nat, states: seq<Global>, run: seq<Step>, t: nat)
    requires Behaviour(n, states, run) && t < |run| && Formed(states[t]) && Formed(states[t + 1])
    requires Within(states[t], Paid(EVENT, n, states, run, t))
    ensures Within(states[t + 1], Paid(EVENT, n, states, run, t + 1))
  {
    assert StepAt(states, run, t);
    StepWithin(states[t], run[t], Paid(EVENT, n, states, run, t));
  }

  /** No clock and no stamp exceeds the number of communication events so far. */
  lemma {:induction false} ClocksCountEvents(n: nat, states: seq<Global>, run: seq<Step>, t: nat)
    requires Behaviour(n, states, run) && t <= |run|
    ensures Formed(states[t]) && states[t].n == n && Within(states[t], Paid(EVENT, n, states, run, t))
  {
    InvAlways(n, states, run, t);
    if t > 0 {
      ClocksCountEvents(n, states, run, t - 1);
      NextWithin(n, states, run, t - 1);
    }
  }

  lemma FourteenChildren(n: nat)
    requires 1 <= n <= 14
    ensures EventsInTotal(n) <= 28770
  {
    assert 5 * n * (n + 1) <= 5 * 14 * (n + 1) <= 5 * 14 * 15;
    assert TotalEntries(n) <= 525;
    assert TotalEntries(n) * (4 * n - 2) <= 525 * (4 * n - 2) <= 525 * 54;
    assert n * n <= 14 * n;
  }

  lemma SmallClocksFit(g: Global, s: Step, top: int)
    requires Formed(g) && Enabled(g, s) && Within(g, top) && top + 1 < INT16_MAX
    ensures !Overflows(g.procs[s.k], s.a)
  {
    if s.a.Recv? { assert s.a.msg in g.chan[s.a.from][s.k]; }
  }

  lemma FewEvents(n: nat, states: seq<Global>, run: seq<Step>, t: nat)
    requires Behaviour(n, states, run) && t <= |run| && n <= 14
    ensures Paid(EVENT, n, states, run, t) <= 28770
  {
    InvAlways(n, states, run, t);
    PaidPlusRemaining(EVENT, n, states, run, t);
    RemainingNonNegative(EVENT, states[t]);
    EventTotal(n);
    FourteenChildren(n);
  }

  /** With at most 14 children no run ever trips a clock check. */
  lemma ClockRange(n: nat, states: seq<Global>, run: seq<Step>, t: nat)
    requires Behaviour(n, states, run) && t < |run| && n <= 14
    ensures Formed(states[t]) && Enabled(states[t], run[t])
    ensures !Overflows(states[t].procs[run[t].k], run[t].a)
  {
    assert StepAt(states, run, t);
    FewEvents(n, states, run, t);
    ClocksCountEvents(n, states, run, t);
    SmallClocksFit(states[t], run[t], Paid(EVENT, n, states, run, t));
  }

  // ---------- causality ----------

  predicate IsEvent(a: Action) {
    a.Start? || a.Request? || a.Exit? || a.Finish? || a.Recv?
  }

  /** The frame this action stamps, if any. */
  predicate Stamps(p: Proc, a: Action, m: Msg)
    requires Shaped(p) && Allowed(p, a)
  {
    IsEvent(a) && var q := Do(p, a); q.out.Sending? && q.out.frame == m
  }

  /** Clock of the acting process right after step `t`. */
  ghost function Time(n: nat, states: seq<Global>, run: seq<Step>, t: nat): int
    requires Behaviour(n, states, run) && t < |run|
  {
    assert StepAt(states, run, t);
    Do(states[t].procs[run[t].k], run[t].a).clock
  }

  /** Step `t` directly precedes step `u`: same process, or the send of what `u` receives. */
  ghost predicate Precedes(n: nat, states: seq<Global>, run: seq<Step>, t: nat, u: nat)
    requires Behaviour(n, states, run) && t < |run| && u < |run|
  {
    && t < u && IsEvent(run[t].a) && IsEvent(run[u].a)
    && (run[t].k == run[u].k
        || (run[u].a.Recv? && run[u].a.from == run[t].k
            && (assert StepAt(states, run, t); Stamps(states[t].procs[run[t].k], run[t].a, run[u].a.msg))))
  }

  lemma EventAdvances(p: Proc, a: Action)
    requires Shaped(p) && Allowed(p, a)
    ensures Do(p, a).clock >= p.clock
    ensures IsEvent(a) ==> Do(p, a).clock > p.clock
    ensures a.Recv? ==> Do(p, a).clock > a.msg.ts
    ensures forall m :: Stamps(p, a, m) ==> m.ts == Do(p, a).clock
  {
  }

  lemma StepAdvances(g: Global, s: Step, k: nat)
    requires Formed(g) && Enabled(g, s) && k <= g.n
    ensures g.procs[k].clock <= Apply(g, s).procs[k].clock
  {
    EventAdvances(g.procs[s.k], s.a);
  }

  lemma ClockStep(n: nat, states: seq<Global>, run: seq<Step>, k: nat, u: nat)
    requires Behaviour(n, states, run) && u < |run| && k <= n
    ensures Formed(states[u]) && Formed(states[u + 1]) && states[u].n == states[u + 1].n == n
    ensures states[u].procs[k].clock <= states[u + 1].procs[k].clock
  {
    InvAlways(n, states, run, u);
    SuccessorState(n, states, run, u);
    StepAdvances(states[u], run[u], k);
  }

  predicate RisesAt(s: seq<int>, x: nat) { x + 1 < |s| ==> s[x] <= s[x + 1] }

  lemma {:induction false} Rises(s: seq<int>, t: nat, u: nat)
    requires t <= u < |s| && forall x: nat :: RisesAt(s, x)
    ensures s[t] <= s[u]
    decreases u - t
  {
    if t < u {
      assert RisesAt(s, u - 1);
      Rises(s, t, u - 1);
    }
  }

  lemma ClockMonotone(n: nat, states: seq<Global>, run: seq<Step>, k: nat, t: nat, u: nat)
    requires Behaviour(n, states, run) && t <= u <= |run| && k <= n
    ensures Formed(states[t]) && Formed(states[u]) && states[t].n == states[u].n == n
    ensures states[t].procs[k].clock <= states[u].procs[k].clock
  {
    forall x: nat | x <= |run| ensures Formed(states[x]) && states[x].n == n { InvAlways(n, states, run, x); }
    var clocks := seq(|run| + 1, x requires 0 <= x <= |run| => states[x].procs[k].clock);
    forall x: nat ensures RisesAt(clocks, x) {
      if x < |run| { ClockStep(n, states, run, k, x); }
    }
    Rises(clocks, t, u);
  }

  lemma PrecedesIncreases(n: nat, states: seq<Global>, run: seq<Step>, t: nat, u: nat)
    requires Behaviour(n, states, run) && t < |run| && u < |run| && Precedes(n, states, run, t, u)
    ensures Time(n, states, run, t) < Time(n, states, run, u)
  {
    assert StepAt(states, run, t) && StepAt(states, run, u);
    InvAlways(n, states, run, t);
    EventAdvances(states[t].procs[run[t].k], run[t].a);
    EventAdvances(states[u].procs[run[u].k], run[u].a);
    if run[t].k == run[u].k {
      SuccessorState(n, states, run, t);
      ClockMonotone(n, states, run, run[t].k, t + 1, u);
    }
  }

  ghost predicate Chain(n: nat, states: seq<Global>, run: seq<Step>, chain: seq<nat>)
    requires Behaviour(n, states, run)
  {
    && (forall x :: 0 <= x < |chain| ==> chain[x] < |run|)
    && forall x :: 0 <= x < |chain| - 1 ==> Precedes(n, states, run, chain[x], chain[x + 1])
  }

  lemma ChainFront(n: nat, states: seq<Global>, run: seq<Step>, chain: seq<nat>)
    requires Behaviour(n, states, run) && Chain(n, states, run, chain) && |chain| >= 1
    ensures Chain(n, states, run, chain[..|chain| - 1])
  {
  }

  /** The clock condition: along every causal chain of events the clock values
      strictly increase. */
  lemma {:induction false} ClockCondition(n: nat, states: seq<Global>, run: seq<Step>, chain: seq<nat>)
    requires Behaviour(n, states, run) && |chain| >= 2 && Chain(n, states, run, chain)
    ensures Time(n, states, run, chain[0]) < Time(n, states, run, chain[|chain| - 1])
  {
    var last := |chain| - 1;
    PrecedesIncreases(n, states, run, chain[last - 1], chain[last]);
    if last >= 2 {
      ChainFront(n, states, run, chain);
      ClockCondition(n, states, run, chain[..last]);
    }
  }

  /** The frame `m` on the link i -> j was stamped by an earlier step of `i`. */
  ghost predicate HasOrigin(n: nat, states: seq<Global>, run: seq<Step>, t: nat, i: nat, m: Msg)
    requires Behaviour(n, states, run) && t <= |run|
  {
    exists u: nat :: u < t && StepAt(states, run, u) && run[u].k == i && Stamps(states[u].procs[i], run[u].a, m)
  }

  lemma NewFrameIsStamped(g: Global, s: Step, i: nat, j: nat, m: Msg)
    requires Inv(g) && Enabled(g, s) && Distinct(g, i, j)
    requires m in Link(Apply(g, s), i, j) && m !in Link(g, i, j)
    ensures s.k == i && Stamps(g.procs[i], s.a, m)
  {
    if s.a.Write? {
      WriteKeepsLinks(g, s, i, j);
    } else if s.a.Recv? {
      RecvMovesLinks(g, s, i, j);
      if s.k >= 1 { ChildAccepts(g, s); } else { ParentAccepts(g, s); }
    } else if s.a.Start? || s.a.Request? || s.a.Exit? || s.a.Finish? {
      BroadcastMovesLinks(g, s, i, j);
    } else {
      QuietStepKeepsLinks(g, s, i, j);
    }
  }

  /** The frames a step puts on the links are its own. */
  lemma NewOrigin(n: nat, states: seq<Global>, run: seq<Step>, t: nat, i: nat, j: nat, m: Msg)
    requires Behaviour(n, states, run) && t < |run| && i <= n && j <= n && i != j
    requires Formed(states[t]) && Formed(states[t + 1]) && states[t].n == states[t + 1].n == n
    requires m in Link(states[t + 1], i, j) && m !in Link(states[t], i, j)
    ensures HasOrigin(n, states, run, t + 1, i, m)
  {
    assert StepAt(states, run, t);
    InvAlways(n, states, run, t);
    NewFrameIsStamped(states[t], run[t], i, j, m);
  }

  /** Nothing is received that was not sent: every frame under way has a sending step. */
  lemma {:induction false} FramesHaveOrigin(
      n: nat, states: seq<Global>, run: seq<Step>, t: nat, i: nat, j: nat, m: Msg)
    requires Behaviour(n, states, run) && t <= |run| && i <= n && j <= n && i != j
    requires Formed(states[t]) && states[t].n == n && m in Link(states[t], i, j)
    ensures HasOrigin(n, states, run, t, i, m)
  {
    if t > 0 {
      SuccessorState(n, states, run, t - 1);
      if m in Link(states[t - 1], i, j) { FramesHaveOrigin(n, states, run, t - 1, i, j, m); }
      else { NewOrigin(n, states, run, t - 1, i, j, m); }
    }
  }
}
