/** Every step of the bank keeps its invariant. */
module BankSteps {
  import opened Wire
  import opened LedgerCells
  import opened BankProcess
  import opened BankSystem
  import opened BankInvariant

  /** What a step does to the token, with the frames that prompt it. */
  lemma TokenStep(g: Global, tk: Token, s: Step)
    requires Inv(g, tk) && Enabled(g, s)
    ensures var tk', p := NextToken(g.procs[s.k], s.a, tk, g.script), g.procs[s.k];
      || (tk' == tk && !s.a.Instruct? && !(s.a.Recv? && (s.a.msg.kind.TRANSFER? || s.a.msg.kind.ACK?)))
      || (s.a.Instruct? && s.k == 0 && tk.None? && tk' == Told(g.script[p.pc.k]))
      || (s.a.Recv? && s.k == 0 && p.pc.AwaitAck? && tk.Landed? && s.a.from == tk.order.dst && tk'.None?
          && s.a.msg.kind.ACK?)
      || (s.a.Recv? && p.pc.Running? && s.a.msg.kind.TRANSFER? && tk.Told? && s.a.from == 0 && s.k == tk.order.src
          && s.a.msg.payload == Transfer(tk.order) && tk' == Forwarded(tk.order))
      || (s.a.Recv? && p.pc.Running? && s.a.msg.kind.TRANSFER? && tk.Forwarded? && s.a.from == tk.order.src
          && s.k == tk.order.dst && s.a.msg.payload == Transfer(tk.order) && tk' == Landed(tk.order))
  {
    if s.a.Recv? {
      if s.k == 0 { ParentAccepts(g, tk, s); }
      else if g.procs[s.k].pc.Running? { RunningChildAccepts(g, tk, s); }
      else { StartingChildAccepts(g, tk, s); }
    }
  }

  lemma Accepted(g: Global, tk: Token, s: Step)
    requires Inv(g, tk) && Enabled(g, s) && s.a.Recv?
    ensures Hears(g.procs[s.k], s.a, g.script)
  {
    if s.k == 0 { ParentAccepts(g, tk, s); }
    else if g.procs[s.k].pc.Running? { RunningChildAccepts(g, tk, s); }
    else { StartingChildAccepts(g, tk, s); }
  }

  lemma OrderIsValid(g: Global, tk: Token)
    requires Inv(g, tk) && !tk.None?
    ensures ValidOrder(tk.order, g.n)
  {
    assert tk.order in g.script;
  }

  // ---------- pairs ----------

  lemma SenderStepSilent(g: Global, tk: Token, s: Step, j: nat)
    requires Formed(g) && Enabled(g, s) && Pair(g, s.k, j) && PairAt(g, tk, s.k, j) && Silent(s.a)
    ensures PairAt(Apply(g, s), tk, s.k, j)
  {
    var f := Link(g, s.k, j);
    StepMovesLinks(g, s, s.k, j);
    SilentSender(g.procs[s.k], g.procs[j], tk, f, s.a, g.script);
    assert f + [] == f;
  }

  lemma LoudSender(a: Proc, b: Proc, tk: Token, f: seq<Frame>, act: Action, script: seq<Order>)
    requires Ready(a, script) && Shaped(b) && a.n == b.n && a.id != b.id && Holds(a, b, tk, f)
    requires Allowed(a, act, script)
    requires (act.Start? && !a.stopped && tk.None?) || act.Report? || (act.Instruct? && tk.None?) || act.Stop?
    ensures Holds(Do(a, act, script), b, NextToken(a, act, tk, script), f + AddedTo(a, act, script, b.id))
  {
    match act
    case Start(_) => StartingSender(a, b, tk, f, act, script);
    case Report => ReportingSender(a, b, tk, f, act, script);
    case Instruct => InstructingSender(a, b, f, act, script);
    case Stop => StoppingSender(a, b, tk, f, act, script);
  }

  lemma SenderStepLoud(g: Global, tk: Token, s: Step, j: nat)
    requires Formed(g) && Enabled(g, s) && Pair(g, s.k, j) && PairAt(g, tk, s.k, j)
    requires s.a.Start? || s.a.Report? || s.a.Instruct? || s.a.Stop?
    requires s.a.Start? ==> !g.procs[s.k].stopped && tk.None?
    requires s.a.Instruct? ==> tk.None?
    ensures PairAt(Apply(g, s), NextToken(g.procs[s.k], s.a, tk, g.script), s.k, j)
  {
    StepMovesLinks(g, s, s.k, j);
    LoudSender(g.procs[s.k], g.procs[j], tk, Link(g, s.k, j), s.a, g.script);
  }

  lemma SenderStepSending(g: Global, tk: Token, s: Step, j: nat)
    requires Inv(g, tk) && Enabled(g, s) && Pair(g, s.k, j) && !s.a.Recv?
    ensures PairAt(Apply(g, s), NextToken(g.procs[s.k], s.a, tk, g.script), s.k, j)
  {
    assert PairAt(g, tk, s.k, j);
    assert s.k >= 1 ==> ChildInv(g.procs[s.k], g.opening[s.k]);
    if Silent(s.a) {
      SenderStepSilent(g, tk, s, j);
    } else {
      if s.a.Start? && !tk.None? { TokenMeansUp(g, tk, s.k); }
      SenderStepLoud(g, tk, s, j);
    }
  }

  lemma SenderStepTransfer(g: Global, tk: Token, s: Step, j: nat)
    requires Inv(g, tk) && Enabled(g, s) && Pair(g, s.k, j) && s.a.Recv?
    requires g.procs[s.k].pc.Running? && s.a.msg.kind.TRANSFER?
    ensures PairAt(Apply(g, s), NextToken(g.procs[s.k], s.a, tk, g.script), s.k, j)
  {
    var a, b, f := g.procs[s.k], g.procs[j], Link(g, s.k, j);
    assert PairAt(g, tk, s.k, j);
    StepMovesLinks(g, s, s.k, j);
    Accepted(g, tk, s);
    TokenStep(g, tk, s);
    TokenMeansUp(g, tk, s.k);
    if tk.Told? { ForwardingSender(a, b, tk, f, s.a, g.script); }
    else { CreditingSender(a, b, tk, f, s.a, g.script); }
  }

  lemma SenderStepListening(g: Global, tk: Token, s: Step, j: nat)
    requires Inv(g, tk) && Enabled(g, s) && Pair(g, s.k, j) && s.a.Recv?
    requires g.procs[s.k].pc.Running? ==> !s.a.msg.kind.TRANSFER? && !s.a.msg.kind.STOP?
    ensures PairAt(Apply(g, s), NextToken(g.procs[s.k], s.a, tk, g.script), s.k, j)
  {
    var a, b, f := g.procs[s.k], g.procs[j], Link(g, s.k, j);
    var tk' := NextToken(a, s.a, tk, g.script);
    assert PairAt(g, tk, s.k, j);
    StepMovesLinks(g, s, s.k, j);
    Accepted(g, tk, s);
    TokenStep(g, tk, s);
    ListeningSender(a, b, tk, f, s.a, g.script);
    assert AddedTo(a, s.a, g.script, j) == [] && f + [] == f;
    if tk' != tk { OrderIsValid(g, tk); TokenElsewhere(f, Do(a, s.a, g.script), b, tk, tk'); }
  }

  lemma SenderStepStopped(g: Global, tk: Token, s: Step, j: nat)
    requires Inv(g, tk) && Enabled(g, s) && Pair(g, s.k, j) && s.a.Recv?
    requires g.procs[s.k].pc.Running? && s.a.msg.kind.STOP?
    ensures PairAt(Apply(g, s), NextToken(g.procs[s.k], s.a, tk, g.script), s.k, j)
  {
    assert PairAt(g, tk, s.k, j);
    StepMovesLinks(g, s, s.k, j);
    Accepted(g, tk, s);
    StoppedSender(g.procs[s.k], g.procs[j], tk, Link(g, s.k, j), s.a, g.script);
  }

  lemma SenderStepHearing(g: Global, tk: Token, s: Step, j: nat)
    requires Inv(g, tk) && Enabled(g, s) && Pair(g, s.k, j) && s.a.Recv?
    ensures PairAt(Apply(g, s), NextToken(g.procs[s.k], s.a, tk, g.script), s.k, j)
  {
    if g.procs[s.k].pc.Running? && s.a.msg.kind.TRANSFER? { SenderStepTransfer(g, tk, s, j); }
    else if g.procs[s.k].pc.Running? && s.a.msg.kind.STOP? { SenderStepStopped(g, tk, s, j); }
    else { SenderStepListening(g, tk, s, j); }
  }

  /** What a reception and the link it is from have to do with each other. */
  lemma TakerReady(g: Global, tk: Token, s: Step)
    requires Inv(g, tk) && Enabled(g, s) && s.a.Recv?
    ensures Pair(g, s.a.from, s.k)
    ensures Taking(g.procs[s.a.from], g.procs[s.k], tk, NextToken(g.procs[s.k], s.a, tk, g.script),
                   Link(g, s.a.from, s.k), s.a, g.script)
  {
    assert Pair(g, s.a.from, s.k) && PairAt(g, tk, s.a.from, s.k);
    StepMovesLinks(g, s, s.a.from, s.k);
    Accepted(g, tk, s);
    TokenStep(g, tk, s);
    if !tk.None? { OrderIsValid(g, tk); }
  }

  lemma TakerStep(g: Global, tk: Token, s: Step)
    requires Inv(g, tk) && Enabled(g, s) && s.a.Recv?
    ensures Pair(g, s.a.from, s.k)
    ensures PairAt(Apply(g, s), NextToken(g.procs[s.k], s.a, tk, g.script), s.a.from, s.k)
  {
    var i, j := s.a.from, s.k;
    var a, b, f := g.procs[i], g.procs[j], Link(g, i, j);
    var tk' := NextToken(b, s.a, tk, g.script);
    TakerReady(g, tk, s);
    StepMovesLinks(g, s, i, j);
    if b.pc.Running? {
      RunningChildAccepts(g, tk, s);
      TakingRunning(a, b, tk, tk', f, s.a, g.script);
    } else {
      TakingWaiting(a, b, tk, tk', f, s.a, g.script);
    }
  }

  /** The token has nothing to do with a link neither of whose ends it leaves or reaches. */
  lemma BystanderToken(g: Global, tk: Token, s: Step, i: nat, j: nat)
    requires Inv(g, tk) && Enabled(g, s) && Pair(g, i, j) && s.k != i && !(s.a.Recv? && s.a.from == i && s.k == j)
    ensures var tk' := NextToken(g.procs[s.k], s.a, tk, g.script);
            Carried(tk, i, j) == Carried(tk', i, j) && (!tk.None? && !tk'.None? ==> tk.order == tk'.order)
  {
    TokenStep(g, tk, s);
    if !tk.None? { OrderIsValid(g, tk); }
    var tk' := NextToken(g.procs[s.k], s.a, tk, g.script);
    if s.a.Instruct? { assert g.script[g.procs[0].pc.k] in g.script; }
  }

  lemma BystanderStep(g: Global, tk: Token, s: Step, i: nat, j: nat)
    requires Inv(g, tk) && Enabled(g, s) && Pair(g, i, j) && s.k != i && !(s.a.Recv? && s.a.from == i && s.k == j)
    ensures PairAt(Apply(g, s), NextToken(g.procs[s.k], s.a, tk, g.script), i, j)
  {
    var a, b, f := g.procs[i], g.procs[j], Link(g, i, j);
    var tk' := NextToken(g.procs[s.k], s.a, tk, g.script);
    assert PairAt(g, tk, i, j);
    StepMovesLinks(g, s, i, j);
    BystanderToken(g, tk, s, i, j);
    if s.k != j {
      TokenElsewhere(f, a, b, tk, tk');
    } else if s.a.Recv? {
      Accepted(g, tk, s);
      if b.pc.Running? { RunningChildAccepts(g, tk, s); }
      OtherwiseEngaged(a, b, tk, f, s.a, g.script);
      TokenElsewhere(f, a, Do(b, s.a, g.script), tk, tk');
    } else {
      SilentReceiver(a, b, tk, f, s.a, g.script);
      TokenElsewhere(f, a, Do(b, s.a, g.script), tk, tk');
    }
  }

  // ---------- local facts ----------

  lemma ExtendedShape(l: Cells, time: int, opening: int, clock: int, clock': int)
    requires LedgerShape(l, opening, clock) && clock' >= clock && clock' >= time
    ensures LedgerShape(Extended(l, time), opening, clock')
  {
    ExtendedCells(l, time);
  }

  lemma DebitedShape(l: Cells, time: nat, amount: int, opening: int, clock: int)
    requires LedgerShape(l, opening, clock) && time > clock >= 0
    ensures LedgerShape(Debited(l, time, amount), opening, time)
  {
    ExtendedCells(l, time);
  }

  lemma CreditedShape(l: Cells, sent: nat, received: nat, amount: int, opening: int, clock: int)
    requires LedgerShape(l, opening, clock) && received > clock >= 0 && sent < received && amount >= 0
    ensures LedgerShape(Credited(l, sent, received, amount), opening, received)
  {
    ExtendedCells(l, received);
  }

  lemma LaterShape(l: Cells, opening: int, clock: int, clock': int)
    requires LedgerShape(l, opening, clock) && clock' >= clock
    ensures LedgerShape(l, opening, clock')
  {
  }

  lemma ChildReceives(p: Proc, a: Action, script: seq<Order>, opening: int)
    requires Hears(p, a, script) && p.id != PARENT && ChildInv(p, opening)
    requires p.pc.Running? && a.msg.kind.DONE? ==> a.from != p.id && a.from != PARENT
    ensures ChildInv(Do(p, a, script), opening)
  {
    var q := Moved(p, a.msg);
    if p.pc.Running? && a.msg.kind.TRANSFER? {
      var o := a.msg.payload.order;
      LaterShape(p.ledger, opening, p.clock, q.clock);
      if SourceSide(q, a.from, o) {
        DebitedShape(p.ledger, q.clock + 1, o.amount, opening, q.clock);
      } else {
        CreditedShape(p.ledger, a.msg.ts, q.clock, o.amount, opening, p.clock);
        LaterShape(Credited(p.ledger, a.msg.ts, q.clock, o.amount), opening, q.clock, q.clock + 1);
      }
    } else if p.pc.Running? && a.msg.kind.STOP? {
      ExtendedShape(p.ledger, q.clock, opening, p.clock, q.clock + 1);
    } else {
      LaterShape(p.ledger, opening, p.clock, q.clock);
    }
  }

  lemma ChildActs(p: Proc, a: Action, script: seq<Order>, opening: int)
    requires Ready(p, script) && p.id != PARENT && ChildInv(p, opening) && Allowed(p, a, script) && !a.Recv?
    ensures ChildInv(Do(p, a, script), opening)
  {
    if a.Report? { ExtendedShape(p.ledger, p.clock, opening, p.clock, p.clock + 1); }
  }

  lemma StepKeepsChildren(g: Global, tk: Token, s: Step, i: nat)
    requires Inv(g, tk) && Enabled(g, s) && 1 <= i <= g.n
    ensures ChildInv(Apply(g, s).procs[i], g.opening[i])
  {
    assert ChildInv(g.procs[i], g.opening[i]);
    if i == s.k {
      if s.a.Recv? {
        Accepted(g, tk, s);
        if g.procs[i].pc.Running? { RunningChildAccepts(g, tk, s); }
        ChildReceives(g.procs[i], s.a, g.script, g.opening[i]);
      } else {
        ChildActs(g.procs[i], s.a, g.script, g.opening[i]);
      }
    }
  }

  lemma StepKeepsParent(g: Global, tk: Token, s: Step)
    requires Inv(g, tk) && Enabled(g, s)
    ensures ParentInv(Apply(g, s).procs[0], NextToken(g.procs[s.k], s.a, tk, g.script), g.script)
  {
    TokenStep(g, tk, s);
    if s.k == 0 && s.a.Recv? {
      Accepted(g, tk, s);
      WaitingReceiver(g.procs[0], s.a, g.script);
    }
  }

  /** Every step keeps the invariant, with the token moved on. */
  lemma StepKeepsInv(g: Global, tk: Token, s: Step)
    requires Inv(g, tk) && Enabled(g, s)
    ensures Inv(Apply(g, s), NextToken(g.procs[s.k], s.a, tk, g.script))
  {
    var h, tk' := Apply(g, s), NextToken(g.procs[s.k], s.a, tk, g.script);
    StepKeepsParent(g, tk, s);
    forall i | 1 <= i <= g.n ensures ChildInv(h.procs[i], g.opening[i]) { StepKeepsChildren(g, tk, s, i); }
    forall i: nat, j: nat | Pair(h, i, j) ensures PairAt(h, tk', i, j) {
      if s.k == i {
        if s.a.Recv? { SenderStepHearing(g, tk, s, j); } else { SenderStepSending(g, tk, s, j); }
      } else if s.a.Recv? && s.a.from == i && s.k == j {
        TakerStep(g, tk, s);
      } else {
        BystanderStep(g, tk, s, i, j);
      }
    }
  }

  /** In every state of every behaviour there is at most one transfer in progress, and
      the links hold exactly what its stage and the barriers call for. */
  lemma {:induction false} InvAlways(
      n: nat, script: seq<Order>, opening: seq<int>, states: seq<Global>, run: seq<Step>, t: nat) returns (tk: Token)
    requires Behaviour(n, script, opening, states, run) && t <= |run|
    ensures Inv(states[t], tk) && states[t].n == n && states[t].script == script && states[t].opening == opening
  {
    if t == 0 {
      InitInv(n, script, opening);
      tk := None;
    } else {
      var tk0 := InvAlways(n, script, opening, states, run, t - 1);
      assert StepAt(states, run, t - 1);
      StepKeepsInv(states[t - 1], tk0, run[t - 1]);
      tk := NextToken(states[t - 1].procs[run[t - 1].k], run[t - 1].a, tk0, script);
    }
  }
}
