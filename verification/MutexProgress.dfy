/** Deadlock freedom: a state in which nothing can move is a finished one. */
module MutexProgress {
  import opened Wire
  import opened MutexProcess
  import opened MutexSystem
  import opened MutexInvariant
  import opened MutexSafety

  ghost predicate Stuck(g: Global)
    requires Formed(g)
  {
    forall s :: !Enabled(g, s)
  }

  lemma StuckProcess(g: Global, k: nat)
    requires Inv(g) && Stuck(g) && k <= g.n
    ensures g.procs[k].out.Quiet?
    ensures g.procs[k].pc.Exited? || Waiting(g.procs[k])
  {
    var p := g.procs[k];
    assert k >= 1 ==> ChildInv(p);
    assert !Enabled(g, Step(k, Write));
    assert !Enabled(g, Step(k, Start(0)));
    assert !Enabled(g, Step(k, LeaveStarted));
    assert !Enabled(g, Step(k, Request));
    assert !Enabled(g, Step(k, Enter));
    assert !Enabled(g, Step(k, Exit));
    assert !Enabled(g, Step(k, Finish(0)));
    assert !Enabled(g, Step(k, LeaveDone));
  }

  lemma StuckLinksEmpty(g: Global, i: nat, j: nat)
    requires Inv(g) && Stuck(g) && Distinct(g, i, j)
    ensures Link(g, i, j) == []
  {
    StuckProcess(g, i);
    StuckProcess(g, j);
    if g.procs[j].pc.Exited? {
      NothingForTheExited(g, i, j);
    } else if g.chan[i][j] != [] {
      assert Enabled(g, Step(j, Recv(i, g.chan[i][j][0])));
    }
  }

  ghost predicate Drained(g: Global)
    requires Formed(g)
  {
    forall i: nat, j: nat :: Distinct(g, i, j) ==> Link(g, i, j) == []
  }

  lemma StuckMeansDrained(g: Global)
    requires Inv(g) && Stuck(g)
    ensures Drained(g)
  {
    forall i: nat, j: nat | Distinct(g, i, j) ensures Link(g, i, j) == [] {
      StuckLinksEmpty(g, i, j);
    }
  }

  /** With empty links everyone's flags are up to date. */
  lemma DrainedPair(g: Global, i: nat, j: nat)
    requires Inv(g) && Drained(g) && Distinct(g, i, j) && i >= 1 && !g.procs[i].pc.Boot?
    ensures g.procs[j].started[i]
    ensures HasFinished(g.procs[i]) ==> g.procs[j].done[i]
    ensures j >= 1 && g.procs[i].requesting ==> g.procs[i].replied[j]
    ensures j >= 1 && g.procs[j].queued[i] ==> g.procs[i].requesting && g.procs[j].stamp[i] == g.procs[i].stamp[i]
  {
    if j == 0 { assert ParentAt(g, i); } else { assert PairAt(g, i, j); }
  }

  lemma StuckPastStart(g: Global, k: nat)
    requires Inv(g) && Stuck(g) && k <= g.n
    ensures g.procs[k].pc.Exited? || g.procs[k].pc.AwaitCs? || g.procs[k].pc.AwaitDone?
  {
    StuckProcess(g, k);
    StuckMeansDrained(g);
    forall peer | 1 <= peer <= g.n && peer != k ensures g.procs[k].started[peer] {
      StuckProcess(g, peer);
      DrainedPair(g, peer, k);
    }
  }

  /** Among the first `k` children the oldest request, if there is one. */
  lemma {:induction false} OldestRequest(g: Global, k: nat) returns (m: nat)
    requires Formed(g) && k <= g.n
    ensures m <= k
    ensures m == 0 ==> forall i :: 1 <= i <= k ==> !g.procs[i].requesting
    ensures m >= 1 ==> g.procs[m].requesting
    ensures m >= 1 ==> forall i :: 1 <= i <= k && i != m && g.procs[i].requesting ==> KeyLess(g.procs[m], g.procs[i])
  {
    if k == 0 { return 0; }
    m := OldestRequest(g, k - 1);
    if g.procs[k].requesting && (m == 0 || KeyLess(g.procs[k], g.procs[m])) {
      return k;
    }
  }

  /** Once everything sent has arrived, the oldest request may enter. */
  lemma OldestMayEnter(g: Global, m: nat)
    requires Inv(g) && Drained(g) && 1 <= m <= g.n && g.procs[m].requesting
    requires forall i :: 1 <= i <= g.n ==> !g.procs[i].pc.Boot?
    requires forall i :: 1 <= i <= g.n && i != m && g.procs[i].requesting ==>
               g.procs[m].stamp[m] < g.procs[i].stamp[i]
               || (g.procs[m].stamp[m] == g.procs[i].stamp[i] && m < i)
    ensures FirstAndConfirmed(g.procs[m])
  {
    var p := g.procs[m];
    forall peer | 1 <= peer <= g.n && peer != m
      ensures p.replied[peer] && !(p.queued[peer] && Before(p.stamp[peer], peer, p.stamp[m], m))
    {
      DrainedPair(g, m, peer);
      DrainedPair(g, peer, m);
    }
  }

  lemma StuckPastWork(g: Global, k: nat)
    requires Inv(g) && Stuck(g) && k <= g.n
    ensures HasFinished(g.procs[k])
  {
    StuckPastStart(g, k);
    if k >= 1 {
      assert ChildInv(g.procs[k]);
      var m := OldestRequest(g, g.n);
      if m >= 1 {
        StuckMeansDrained(g);
        forall i | 1 <= i <= g.n ensures !g.procs[i].pc.Boot? { StuckPastStart(g, i); }
        OldestMayEnter(g, m);
        StuckPastStart(g, m);
        StuckProcess(g, m);
        assert ChildInv(g.procs[m]);
      }
    }
  }

  /** A reachable state that allows no step is one where every process has exited. */
  lemma StuckMeansDone(g: Global, k: nat)
    requires Inv(g) && Stuck(g) && k <= g.n
    ensures g.procs[k].pc.Exited?
  {
    StuckProcess(g, k);
    StuckPastWork(g, k);
    StuckMeansDrained(g);
    forall peer | 1 <= peer <= g.n && peer != k ensures g.procs[k].done[peer] {
      StuckPastWork(g, peer);
      DrainedPair(g, peer, k);
    }
  }

  /** A process takes a frame only where it has to wait: at a barrier some other child has
      not reached, or with a request that someone has not confirmed or someone else comes
      before.  Whoever may go on goes on. */
  lemma HearsOnlyWaiting(n: nat, states: seq<Global>, run: seq<Step>, t: nat)
    requires Behaviour(n, states, run) && t < |run| && run[t].a.Recv?
    ensures Formed(states[t]) && states[t].n == n && run[t].k <= n
    ensures var p, k := states[t].procs[run[t].k], run[t].k;
            exists i :: 1 <= i <= n && i != k &&
              match p.pc
              case AwaitStarted => !p.started[i]
              case AwaitCs =>
                !p.replied[i]
                || (p.queued[i] && (p.stamp[i] < p.stamp[k] || (p.stamp[i] == p.stamp[k] && i < k)))
              case AwaitDone => !p.done[i]
              case _ => false
  {
    assert StepAt(states, run, t);
    InvAlways(n, states, run, t);
    var p := states[t].procs[run[t].k];
    match p.pc
    case AwaitStarted => var i :| 1 <= i <= n && i != p.id && !p.started[i];
    case AwaitCs =>
      var i :| 1 <= i <= n && i != p.id
               && !(p.replied[i] && !(p.queued[i] && Before(p.stamp[i], i, p.stamp[p.id], p.id)));
    case AwaitDone => var i :| 1 <= i <= n && i != p.id && !p.done[i];
    case _ => assert false;
  }

  /** As long as some process has not finished its run, some step is possible. */
  lemma DeadlockFreedom(n: nat, states: seq<Global>, run: seq<Step>, t: nat, k: nat)
    requires Behaviour(n, states, run) && t <= |run| && k <= n
    ensures Inv(states[t]) && states[t].n == n
    ensures !states[t].procs[k].pc.Exited? ==> exists s :: Enabled(states[t], s)
  {
    InvAlways(n, states, run, t);
    if !states[t].procs[k].pc.Exited? && forall s :: !Enabled(states[t], s) {
      StuckMeansDone(states[t], k);
    }
  }

  /** What a finished run leaves behind: all rounds done, nothing under way, every
      request table clear. */
  lemma FinishedState(g: Global, i: nat, j: nat)
    requires Inv(g) && i <= g.n && 1 <= j <= g.n && i != j
    requires forall k :: 0 <= k <= g.n ==> g.procs[k].pc.Exited?
    ensures g.chan[i][j] == [] && g.chan[j][i] == []
    ensures !g.procs[i].queued[j] && !g.procs[j].queued[j]
    ensures g.procs[j].rounds == 5 * j
  {
    NothingForTheExited(g, i, j);
    NothingForTheExited(g, j, i);
    assert ChildInv(g.procs[j]);
    if i >= 1 { assert PairAt(g, j, i); assert ChildInv(g.procs[i]); }
  }
}
