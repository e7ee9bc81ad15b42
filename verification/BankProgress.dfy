/** The bank never gets stuck before the parent and every account are through, and
    stalls before STOP is heard only when every transfer has been made. */
module BankProgress {
  import opened Wire
  import opened BankProcess
  import opened BankSystem
  import opened BankPair
  import opened BankInvariant
  import opened BankSteps

  // ---------- counting the DONE marks ----------

  function Marks(mask: seq<bool>): nat {
    if mask == [] then 0 else Marks(mask[..|mask| - 1]) + if mask[|mask| - 1] then 1 else 0
  }

  lemma {:induction false} MarkOne(mask: seq<bool>, i: nat)
    requires i < |mask| && !mask[i]
    ensures Marks(mask[i := true]) == Marks(mask) + 1
  {
    var last := |mask| - 1;
    if i == last {
      assert mask[i := true][..last] == mask[..last];
    } else {
      assert mask[i := true][..last] == mask[..last][i := true];
      MarkOne(mask[..last], i);
    }
  }

  lemma {:induction false} MarksBounded(mask: seq<bool>)
    ensures Marks(mask) <= |mask|
    ensures Marks(mask) == |mask| <==> forall i :: 0 <= i < |mask| ==> mask[i]
  {
    if mask != [] { MarksBounded(mask[..|mask| - 1]); }
  }

  lemma {:induction false} NoMarks(k: nat)
    ensures Marks(seq(k, _ => false)) == 0
  {
    if k > 0 {
      assert seq(k, _ => false)[..k - 1] == seq(k - 1, _ => false);
      NoMarks(k - 1);
    }
  }

  predicate AllOthersMarked(mask: seq<bool>, id: nat) {
    forall i :: 1 <= i < |mask| && i != id ==> mask[i]
  }

  /** The count reaches n - 1 exactly when every other account is marked. */
  lemma MarksComplete(mask: seq<bool>, id: nat)
    requires 1 <= id < |mask| && !mask[0] && !mask[id]
    ensures Marks(mask) <= |mask| - 2
    ensures Marks(mask) == |mask| - 2 <==> AllOthersMarked(mask, id)
  {
    var full := mask[0 := true][id := true];
    MarkOne(mask, 0);
    MarkOne(mask[0 := true], id);
    MarksBounded(full);
    assert forall i :: 1 <= i < |mask| && i != id ==> full[i] == mask[i];
  }

  predicate Tallied(p: Proc)
    requires Shaped(p)
  {
    p.doneCount == Marks(p.doneMask) && (p.pc.Reported? ==> p.doneCount >= p.n - 1)
  }

  lemma StepTallies(p: Proc, a: Action, script: seq<Order>)
    requires Ready(p, script) && Allowed(p, a, script) && (a.Recv? ==> Hears(p, a, script))
    requires p.id != PARENT && Tallied(p)
    ensures Tallied(Do(p, a, script))
  {
    if a.Recv? && p.pc.Running? && a.msg.kind.DONE? { MarkOne(p.doneMask, a.from); }
  }

  ghost predicate AllTallied(g: Global)
    requires Formed(g)
  {
    forall i :: 1 <= i <= g.n ==> Tallied(g.procs[i])
  }

  lemma StepKeepsTallies(g: Global, tk: Token, s: Step)
    requires Inv(g, tk) && Enabled(g, s) && AllTallied(g)
    ensures AllTallied(Apply(g, s))
  {
    if s.k >= 1 {
      if s.a.Recv? { Accepted(g, tk, s); }
      StepTallies(g.procs[s.k], s.a, g.script);
    }
  }

  // ---------- no way to get stuck ----------

  ghost predicate Stuck(g: Global)
    requires Formed(g)
  {
    forall s :: !Enabled(g, s)
  }

  predicate TakesStop(a: Action) { a.Recv? && a.msg.kind.STOP? }

  /** Nothing can happen any more, except that STOP is sent or taken. */
  ghost predicate Stalled(g: Global)
    requires Formed(g)
  {
    forall s :: Enabled(g, s) ==> s.a.Stop? || TakesStop(s.a)
  }

  /** Apart from receiving, a stalled process has nothing left to do. */
  predicate Idle(p: Proc, orders: nat)
    requires Shaped(p)
  {
    && p.out.Quiet? && !p.pc.Boot?
    && (p.pc.Issue? ==> p.pc.k >= orders)
    && (p.pc.AwaitStarted? ==> p.pc.peer <= p.n && p.pc.peer != p.id)
    && (p.pc.Running? ==> Serving(p))
    && (p.pc.AwaitDone? ==> p.pc.peer <= p.n)
    && (p.pc.AwaitHistory? ==> p.pc.peer <= p.n)
  }

  lemma StalledIsIdle(g: Global, k: nat)
    requires Formed(g) && Stalled(g) && k <= g.n
    ensures Idle(g.procs[k], |g.script|)
  {
    assert !Enabled(g, Step(k, Write));
    assert !Enabled(g, Step(k, Start(0)));
    assert !Enabled(g, Step(k, Skip));
    assert !Enabled(g, Step(k, PassStarted));
    assert !Enabled(g, Step(k, Report));
    assert !Enabled(g, Step(k, Instruct));
    assert !Enabled(g, Step(k, PassDone));
    assert !Enabled(g, Step(k, Close));
  }

  /** A stalled process listens to no link that holds anything but STOP, a stuck one to
      no link that holds anything at all. */
  lemma StalledDeaf(g: Global, tk: Token, i: nat, j: nat)
    requires Inv(g, tk) && Stalled(g) && Pair(g, i, j) && Listens(g.procs[j], i, g.script)
    ensures var v := ViewOf(g.procs[i], g.procs[j], tk);
            !v.started && v.token == [] && !v.done && !v.history && (Stuck(g) ==> !v.stop)
  {
    var v, f := ViewOf(g.procs[i], g.procs[j], tk), Link(g, i, j);
    StalledIsIdle(g, i);
    StalledIsIdle(g, j);
    assert PairAt(g, tk, i, j);
    KindsPresent(f);
    assert f == g.chan[i][j];
    if f != [] {
      assert Enabled(g, Step(j, Recv(i, f[0], 0)));
      TakeFirst(v, f);
    } else {
      assert Expected(v) == [];
    }
  }

  lemma EmptyView(v: View)
    ensures Expected(v) == [] <==> !v.started && v.token == [] && !v.stop && !v.done && !v.history
  {
  }

  lemma StalledPastStarted(g: Global, tk: Token, j: nat)
    requires Inv(g, tk) && Stalled(g) && j <= g.n
    ensures !g.procs[j].pc.AwaitStarted?
  {
    StalledIsIdle(g, j);
    if g.procs[j].pc.AwaitStarted? {
      var i := g.procs[j].pc.peer;
      StalledIsIdle(g, i);
      StalledDeaf(g, tk, i, j);
    }
  }

  lemma StalledChild(g: Global, tk: Token, j: nat)
    requires Inv(g, tk) && Stalled(g) && 1 <= j <= g.n
    ensures g.procs[j].pc.Reported? || (g.procs[j].pc.Running? && Serving(g.procs[j]))
  {
    StalledIsIdle(g, j);
    StalledPastStarted(g, tk, j);
    assert ChildInv(g.procs[j], g.opening[j]);
  }

  lemma StalledNoToken(g: Global, tk: Token)
    requires Inv(g, tk) && Stalled(g)
    ensures tk.None?
  {
    if !tk.None? {
      OrderIsValid(g, tk);
      var o := tk.order;
      TokenMeansUp(g, tk, o.src);
      TokenMeansUp(g, tk, o.dst);
      StalledChild(g, tk, o.src);
      StalledChild(g, tk, o.dst);
      match tk
      case Told(_) => StalledDeaf(g, tk, 0, o.src);
      case Forwarded(_) => StalledDeaf(g, tk, o.src, o.dst);
      case Landed(_) => StalledDeaf(g, tk, o.dst, 0);
    }
  }

  lemma StalledParent(g: Global, tk: Token)
    requires Inv(g, tk) && Stalled(g)
    ensures HasStopped(g.procs[0]) || (g.procs[0].pc.Issue? && g.procs[0].pc.k >= |g.script|)
    ensures Stuck(g) ==> HasStopped(g.procs[0])
  {
    StalledNoToken(g, tk);
    StalledIsIdle(g, 0);
    StalledPastStarted(g, tk, 0);
    assert !HasStopped(g.procs[0]) ==> Enabled(g, Step(0, Stop));
  }

  lemma StuckHasStopped(g: Global, tk: Token, j: nat)
    requires Inv(g, tk) && Stuck(g) && 1 <= j <= g.n
    ensures HasStopped(g.procs[0]) && g.procs[j].stopped
  {
    StalledParent(g, tk);
    StalledChild(g, tk, j);
    assert ChildInv(g.procs[j], g.opening[j]);
    if !g.procs[j].stopped { StalledDeaf(g, tk, 0, j); }
  }

  lemma StuckHasReported(g: Global, tk: Token, j: nat)
    requires Inv(g, tk) && Stuck(g) && AllTallied(g) && 1 <= j <= g.n
    ensures g.procs[j].pc.Reported? && AllOthersMarked(g.procs[j].doneMask, j)
  {
    var p := g.procs[j];
    StalledChild(g, tk, j);
    assert ChildInv(p, g.opening[j]) && Tallied(p);
    MarksComplete(p.doneMask, j);
    if p.pc.Running? {
      StuckHasStopped(g, tk, j);
      var i :| 1 <= i < |p.doneMask| && i != j && !p.doneMask[i];
      StuckHasStopped(g, tk, i);
      StalledDeaf(g, tk, i, j);
    }
  }

  lemma StuckParent(g: Global, tk: Token)
    requires Inv(g, tk) && Stuck(g) && AllTallied(g)
    ensures g.procs[0].pc.Exited?
  {
    StalledIsIdle(g, 0);
    StuckHasStopped(g, tk, 1);
    var pc := g.procs[0].pc;
    if pc.AwaitDone? || pc.AwaitHistory? {
      StuckHasReported(g, tk, pc.peer);
      StuckHasStopped(g, tk, pc.peer);
      StalledDeaf(g, tk, pc.peer, 0);
    }
  }

  lemma StuckLinksEmpty(g: Global, tk: Token, i: nat, j: nat)
    requires Inv(g, tk) && Stuck(g) && AllTallied(g) && Pair(g, i, j)
    ensures Link(g, i, j) == []
  {
    StalledNoToken(g, tk);
    StuckParent(g, tk);
    if i >= 1 { StuckHasReported(g, tk, i); }
    if j >= 1 { StuckHasReported(g, tk, j); StuckHasStopped(g, tk, j); }
    assert PairAt(g, tk, i, j);
    EmptyView(ViewOf(g.procs[i], g.procs[j], tk));
    KindsPresent(Link(g, i, j));
  }

  /** Before STOP is sent, a stalled bank is about to send it. */
  lemma StalledBeforeStop(g: Global, tk: Token, j: nat)
    requires Inv(g, tk) && Stalled(g) && !HasStopped(g.procs[0]) && 1 <= j <= g.n
    ensures g.procs[0].pc.Issue? && g.procs[0].pc.k >= |g.script| && g.procs[0].out.Quiet?
    ensures g.procs[j].pc.Running? && g.procs[j].out.Quiet? && !g.procs[j].stopped
  {
    StalledParent(g, tk);
    StalledIsIdle(g, 0);
    StalledIsIdle(g, j);
    StalledChild(g, tk, j);
    assert ChildInv(g.procs[j], g.opening[j]);
    assert PairAt(g, tk, 0, j);
  }
}
