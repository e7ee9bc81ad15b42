/** Phase safety of the bank: no check fails, and stopping finds no money on the move. */
module BankSafety {
  import opened Wire
  import opened BankProcess
  import opened BankSystem
  import opened BankPair
  import opened BankInvariant
  import opened BankSteps

  /** No process ever fails, and every frame received passes the checks of its phase:
      expected kind, right channel, valid order, sent before received. */
  lemma NoCheckFails(
      n: nat, script: seq<Order>, opening: seq<int>, states: seq<Global>, run: seq<Step>, t: nat, k: nat)
    requires Behaviour(n, script, opening, states, run) && t <= |run| && k <= n
    ensures Formed(states[t]) && states[t].n == n
    ensures !states[t].procs[k].pc.Failed?
    ensures t < |run| && run[t].a.Recv? ==>
              (assert StepAt(states, run, t);
               !Rejected(Moved(states[t].procs[run[t].k], run[t].a.msg), run[t].a.from, run[t].a.msg))
  {
    var tk := InvAlways(n, script, opening, states, run, t);
    assert k >= 1 ==> ChildInv(states[t].procs[k], opening[k]);
    if t < |run| && run[t].a.Recv? {
      assert StepAt(states, run, t);
      Accepted(states[t], tk, run[t]);
    }
  }

  predicate MovesMoney(m: Frame) { m.kind.TRANSFER? || m.kind.ACK? }

  lemma {:induction false} KindAt(f: seq<Frame>)
    ensures |Kinds(f)| == |f| && forall x :: 0 <= x < |f| ==> Kinds(f)[x] == f[x].kind
  {
    if f != [] { KindAt(f[1..]); }
  }

  /** Where a link that carries the token has it. */
  function MoneyIndex(v: View): nat { if v.started then 1 else 0 }

  /** A frame of the transfer sits right behind STARTED, or at the front. */
  lemma MoneyPosition(v: View, x: nat)
    requires TokenShape(v) && x < |Expected(v)|
    ensures Expected(v)[x] in {TRANSFER, ACK} <==> v.token != [] && x == MoneyIndex(v)
  {
  }

  /** A frame that moves money is the token, and there is one place for it. */
  lemma MoneyIsToken(g: Global, tk: Token, i: nat, j: nat, x: nat)
    requires Inv(g, tk) && Pair(g, i, j) && x < |Link(g, i, j)| && MovesMoney(Link(g, i, j)[x])
    ensures Carried(tk, i, j) != [] && x == MoneyIndex(ViewOf(g.procs[i], g.procs[j], tk))
  {
    assert PairAt(g, tk, i, j);
    KindAt(Link(g, i, j));
    MoneyPosition(ViewOf(g.procs[i], g.procs[j], tk), x);
  }

  /** At most one frame in the whole system belongs to a transfer. */
  lemma OneTransferAtATime(
      n: nat, script: seq<Order>, opening: seq<int>, states: seq<Global>, run: seq<Step>, t: nat,
      i: nat, j: nat, x: nat, i': nat, j': nat, x': nat)
    requires Behaviour(n, script, opening, states, run) && t <= |run|
    requires i <= n && j <= n && i != j && i' <= n && j' <= n && i' != j'
    ensures Formed(states[t]) && states[t].n == n
    ensures var g := states[t];
            x < |Link(g, i, j)| && x' < |Link(g, i', j')|
            && MovesMoney(Link(g, i, j)[x]) && MovesMoney(Link(g, i', j')[x'])
            ==> i == i' && j == j' && x == x'
  {
    var tk := InvAlways(n, script, opening, states, run, t);
    var g := states[t];
    if x < |Link(g, i, j)| && x' < |Link(g, i', j')|
       && MovesMoney(Link(g, i, j)[x]) && MovesMoney(Link(g, i', j')[x'])
    {
      MoneyIsToken(g, tk, i, j, x);
      MoneyIsToken(g, tk, i', j', x');
    }
  }

  /** Once STOP is out no link holds a transfer or an acknowledgement any more. */
  lemma NothingMovesAfterStop(
      n: nat, script: seq<Order>, opening: seq<int>, states: seq<Global>, run: seq<Step>, t: nat, i: nat, j: nat)
    requires Behaviour(n, script, opening, states, run) && t <= |run| && i <= n && j <= n && i != j
    ensures Formed(states[t]) && states[t].n == n
    ensures HasStopped(states[t].procs[0]) || (t < |run| && run[t].a.Stop?) ==>
              forall m :: m in Link(states[t], i, j) ==> !MovesMoney(m)
  {
    var tk := InvAlways(n, script, opening, states, run, t);
    assert Pair(states[t], i, j) && PairAt(states[t], tk, i, j);
    if t < |run| && run[t].a.Stop? { assert StepAt(states, run, t) && run[t].k == 0; }
    TransferNeedsToken(ViewOf(states[t].procs[i], states[t].procs[j], tk), Link(states[t], i, j));
  }
}
