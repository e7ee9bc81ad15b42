/** Safety of every run: mutual exclusion, no failed check, clean shutdown and
    bounded channels. */
module MutexSafety {
  import opened Wire
  import opened MutexProcess
  import opened MutexSystem
  import opened MutexPair
  import opened MutexInvariant

  predicate KeyLess(p: Proc, q: Proc)
    requires Shaped(p) && Shaped(q)
  {
    Before(p.stamp[p.id], p.id, q.stamp[q.id], q.id)
  }

  /** Whoever is inside precedes every outstanding request. */
  ghost predicate Exclusive(g: Global)
    requires Formed(g)
  {
    forall i: nat, j: nat ::
      Pair(g, i, j) && g.procs[i].inside && g.procs[j].requesting ==> KeyLess(g.procs[i], g.procs[j])
  }

  /** A confirmed request is older than what the other side has asked for, unless
      that other request is already on the table and can be compared there. */
  lemma ConfirmedRequestOrder(v: View, u: View, f: seq<Msg>, r: seq<Msg>)
    requires PairInv(v, f, r) && PairInv(u, r, f)
    requires v.requesting && v.replied
    ensures v.peerClock > v.ts
    ensures u.requesting ==> u.ts > v.ts || (u.queued && u.seenTs == u.ts)
  {
    if u.requesting && !Answered(u, f) {
      assert CS_REQUEST in Work(r) by {
        assert CS_REQUEST in RequestPart(u, false);
      }
      KindsPresent(r);
    }
  }

  /** The scan of the request table settles the order against a queued request. */
  lemma TableDecides(p: Proc, j: nat)
    requires Shaped(p) && FirstAndConfirmed(p) && 1 <= j <= p.n && j != p.id
    ensures p.replied[j]
    ensures p.queued[j] ==> p.stamp[p.id] < p.stamp[j] || (p.stamp[p.id] == p.stamp[j] && p.id < j)
  {
  }

  lemma ConfirmedPair(g: Global, i: nat, j: nat)
    requires Formed(g) && Pair(g, i, j) && PairAt(g, i, j) && PairAt(g, j, i)
    requires g.procs[i].requesting && g.procs[i].replied[j]
    ensures g.procs[j].clock > g.procs[i].stamp[i]
    ensures g.procs[j].requesting ==>
              g.procs[j].stamp[j] > g.procs[i].stamp[i] ||
              (g.procs[i].queued[j] && g.procs[i].stamp[j] == g.procs[j].stamp[j])
  {
    ConfirmedRequestOrder(ViewOf(g.procs[i], g.procs[j]), ViewOf(g.procs[j], g.procs[i]),
                          Link(g, i, j), Link(g, j, i));
  }

  /** At the moment of entry the own request precedes all others, and every other
      clock has passed it. */
  lemma EntryIsMinimal(g: Global, s: Step, j: nat)
    requires Inv(g) && Enabled(g, s) && s.a.Enter? && Pair(g, s.k, j)
    ensures g.procs[j].clock > g.procs[s.k].stamp[s.k]
    ensures g.procs[j].requesting ==>
              g.procs[s.k].stamp[s.k] < g.procs[j].stamp[j]
              || (g.procs[s.k].stamp[s.k] == g.procs[j].stamp[j] && s.k < j)
  {
    assert PairAt(g, s.k, j) && PairAt(g, j, s.k);
    TableDecides(g.procs[s.k], j);
    ConfirmedPair(g, s.k, j);
  }

  /** While a process is inside, every new request is stamped later. */
  lemma InsideIsOlder(g: Global, i: nat, j: nat)
    requires Inv(g) && Pair(g, i, j) && g.procs[i].inside
    ensures g.procs[j].clock > g.procs[i].stamp[i]
  {
    assert PairAt(g, i, j) && PairAt(g, j, i);
    ConfirmedPair(g, i, j);
  }

  lemma ParentNeverEnters(g: Global, s: Step)
    requires Inv(g) && Enabled(g, s) && s.k == 0
    ensures s.a.LeaveStarted? || s.a.LeaveDone? || s.a.Recv?
  {
  }

  /** A received frame leaves the requests alone. */
  lemma RecvKeepsRequest(g: Global, s: Step, i: nat)
    requires Inv(g) && Enabled(g, s) && s.a.Recv? && 1 <= i <= g.n
    ensures var p, q := g.procs[i], Apply(g, s).procs[i];
            q.requesting == p.requesting && q.inside == p.inside && q.stamp[i] == p.stamp[i] && q.clock >= p.clock
            && q.rounds == p.rounds && q.pc == p.pc
  {
    if s.k >= 1 { ChildAccepts(g, s); }
  }

  lemma StepKeepsExclusive(g: Global, s: Step, i: nat, j: nat)
    requires Inv(g) && Exclusive(g) && Enabled(g, s) && Pair(g, i, j)
    requires Apply(g, s).procs[i].inside && Apply(g, s).procs[j].requesting
    ensures KeyLess(Apply(g, s).procs[i], Apply(g, s).procs[j])
  {
    if s.k == 0 { ParentNeverEnters(g, s); }
    if s.a.Recv? {
      RecvKeepsRequest(g, s, i);
      RecvKeepsRequest(g, s, j);
    } else if s.a.Enter? && s.k == i {
      EntryIsMinimal(g, s, j);
    } else if s.a.Request? && s.k == j {
      InsideIsOlder(g, i, j);
    }
  }

  lemma NextExclusive(g: Global, s: Step)
    requires Inv(g) && Exclusive(g) && Enabled(g, s)
    ensures Exclusive(Apply(g, s))
  {
    var h := Apply(g, s);
    forall i: nat, j: nat | Pair(h, i, j) && h.procs[i].inside && h.procs[j].requesting
      ensures KeyLess(h.procs[i], h.procs[j])
    {
      StepKeepsExclusive(g, s, i, j);
    }
  }

  lemma {:induction false} ExclusiveAlways(n: nat, states: seq<Global>, run: seq<Step>, t: nat)
    requires Behaviour(n, states, run) && t <= |run|
    ensures Inv(states[t]) && states[t].n == n && Exclusive(states[t])
  {
    InvAlways(n, states, run, t);
    if t > 0 {
      ExclusiveAlways(n, states, run, t - 1);
      assert StepAt(states, run, t - 1);
      NextExclusive(states[t - 1], run[t - 1]);
    }
  }

  /** No two processes are ever inside the critical section together. */
  lemma MutualExclusion(n: nat, states: seq<Global>, run: seq<Step>, t: nat, i: nat, j: nat)
    requires Behaviour(n, states, run) && t <= |run|
    requires i <= n && j <= n
    ensures Inv(states[t]) && states[t].n == n
    ensures states[t].procs[i].inside && states[t].procs[j].inside ==> i == j
  {
    ExclusiveAlways(n, states, run, t);
    var g := states[t];
    if g.procs[i].inside && g.procs[j].inside && i != j {
      assert ChildInv(g.procs[i]) && ChildInv(g.procs[j]);
      assert Pair(g, i, j) && Pair(g, j, i);
    }
  }

  /** None of the checks that end the program fires, and no process ever fails. */
  lemma NoCheckFails(n: nat, states: seq<Global>, run: seq<Step>, t: nat, k: nat)
    requires Behaviour(n, states, run) && t <= |run| && k <= n
    ensures Inv(states[t]) && states[t].n == n
    ensures !states[t].procs[k].pc.Failed?
    ensures t < |run| && run[t].a.Recv? ==>
              (assert StepAt(states, run, t); !Rejected(states[t].procs[run[t].k], run[t].a.from, run[t].a.msg))
  {
    InvAlways(n, states, run, t);
    assert k >= 1 ==> ChildInv(states[t].procs[k]);
    if t < |run| && run[t].a.Recv? {
      assert StepAt(states, run, t);
      if run[t].k >= 1 { ChildAccepts(states[t], run[t]); } else { ParentAccepts(states[t], run[t]); }
    }
  }

  // ---------- shutdown ----------

  /** Nothing is under way to a process that has left its last barrier. */
  lemma NothingForTheExited(g: Global, i: nat, j: nat)
    requires Inv(g) && i <= g.n && j <= g.n && i != j && g.procs[j].pc.Exited?
    ensures Link(g, i, j) == []
  {
    if i == 0 {
      assert ParentAt(g, j);
    } else if j == 0 {
      assert ParentAt(g, i);
      assert g.procs[0].started[i] && g.procs[0].done[i];
      KindsPresent(Link(g, i, 0));
    } else {
      assert PairAt(g, i, j) && PairAt(g, j, i);
      assert g.procs[j].started[i] && g.procs[j].done[i];
      KindsPresent(Link(g, i, j));
    }
  }

  /** No frame is ever written to a process that has finished its run. */
  lemma CleanShutdown(n: nat, states: seq<Global>, run: seq<Step>, t: nat)
    requires Behaviour(n, states, run) && t < |run| && run[t].a.Write?
    ensures Formed(states[t]) && run[t].k <= n && states[t].n == n
    ensures var p := states[t].procs[run[t].k];
            p.out.Sending? && (p.out.next != p.id ==> !states[t].procs[p.out.next].pc.Exited?)
  {
    assert StepAt(states, run, t);
    InvAlways(n, states, run, t);
    var g, k := states[t], run[t].k;
    var j := g.procs[k].out.next;
    if j != k {
      assert Link(g, k, j) != [];
      if g.procs[j].pc.Exited? { NothingForTheExited(g, k, j); }
    }
  }

  // ---------- occupancy ----------

  lemma LinkStaysShort(g: Global, i: nat, j: nat)
    requires Inv(g) && i <= g.n && j <= g.n && i != j
    ensures |Link(g, i, j)| <= if i == 0 then 0 else if j == 0 then 2 else 3
  {
    KindsPresent(Link(g, i, j));
    if i == 0 { assert ParentAt(g, j); }
    else if j == 0 { assert ParentAt(g, i); }
    else { assert PairAt(g, i, j) && PairAt(g, j, i); }
  }

  /** Channels between children never hold more than three frames, channels to the parent
      never more than two, channels from the parent none; a frame whose writing has begun
      counts for every target it has not reached. */
  lemma ChannelsStayShort(n: nat, states: seq<Global>, run: seq<Step>, t: nat, i: nat, j: nat)
    requires Behaviour(n, states, run) && t <= |run| && i <= n && j <= n && i != j
    ensures Formed(states[t]) && states[t].n == n
    ensures |states[t].chan[i][j]| <= |Link(states[t], i, j)| <= if i == 0 then 0 else if j == 0 then 2 else 3
  {
    InvAlways(n, states, run, t);
    LinkStaysShort(states[t], i, j);
  }
}
