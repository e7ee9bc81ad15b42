/** Money is conserved at every logical time: in every state of every run, for every
    time t, balances plus pending money plus the transfers that left by t and are still
    on their way add up to what the accounts were opened with. */
module BankConservation {
  import opened Wire
  import opened Sums
  import opened LedgerCells
  import opened BankProcess
  import opened BankSystem
  import opened BankInvariant
  import opened BankSteps

  /** Money a frame carries at time `t`. */
  function Carries(m: Frame, t: nat): int {
    if m.kind.TRANSFER? && m.payload.Transfer? && m.ts <= t then m.payload.order.amount else 0
  }

  function Flight(f: seq<Frame>, t: nat): int {
    if f == [] then 0 else Carries(f[0], t) + Flight(f[1..], t)
  }

  lemma {:induction false} FlightAppend(f: seq<Frame>, m: Frame, t: nat)
    ensures Flight(f + [m], t) == Flight(f, t) + Carries(m, t)
  {
    if f == [] {
      assert f + [m] == [m];
    } else {
      assert (f + [m])[1..] == f[1..] + [m];
      FlightAppend(f[1..], m, t);
    }
  }

  /** What account `i` has on its way to the other accounts. */
  ghost function Flights(g: Global, i: nat, t: nat): seq<int>
    requires Formed(g) && 1 <= i <= g.n
  {
    seq(g.n + 1, j requires 0 <= j <= g.n => if j == 0 || j == i then 0 else Flight(Link(g, i, j), t))
  }

  ghost function Holding(g: Global, i: nat, t: nat): int
    requires Formed(g) && 1 <= i <= g.n
  {
    Worth(g.procs[i].ledger, t) + Sum(Flights(g, i, t))
  }

  ghost function Holdings(g: Global, t: nat): seq<int>
    requires Formed(g)
  {
    seq(g.n + 1, i requires 0 <= i <= g.n => if i == 0 then 0 else Holding(g, i, t))
  }

  ghost predicate Conserved(g: Global)
    requires Formed(g)
  {
    forall t: nat :: Sum(Holdings(g, t)) == Sum(g.opening[0 := 0])
  }

  lemma InitHolding(n: nat, script: seq<Order>, opening: seq<int>, i: nat, t: nat)
    requires n >= 1 && ValidScript(n, script) && |opening| == n + 1 && 1 <= i <= n
    requires Formed(Initial(n, script, opening))
    ensures Holding(Initial(n, script, opening), i, t) == opening[i]
  {
    var f := Flights(Initial(n, script, opening), i, t);
    assert forall j :: 0 <= j <= n ==> f[j] == 0;
    SumZero(f);
  }

  lemma InitConserved(n: nat, script: seq<Order>, opening: seq<int>)
    requires n >= 1 && ValidScript(n, script) && |opening| == n + 1
    ensures Formed(Initial(n, script, opening)) && Conserved(Initial(n, script, opening))
  {
    var g := Initial(n, script, opening);
    assert Inv(g, None) by { InitInv(n, script, opening); }
    forall t: nat ensures Sum(Holdings(g, t)) == Sum(opening[0 := 0]) {
      forall i | 1 <= i <= n ensures Holding(g, i, t) == opening[i] { InitHolding(n, script, opening, i, t); }
      assert Holdings(g, t) == opening[0 := 0];
    }
  }

  // ---------- one account ----------

  /** The acting account pays for what it sends and books what it receives. */
  function Booked(p: Proc, a: Action, t: nat): int
    requires Shaped(p) && (a.Recv? ==> a.from <= p.n)
  {
    if a.Recv? && p.pc.Running? && a.msg.kind.TRANSFER? && a.from != PARENT then Carries(a.msg, t) else 0
  }

  lemma ExtendWorth(p: Proc, opening: int, time: int, t: nat)
    requires Shaped(p) && p.id != PARENT && ChildInv(p, opening)
    ensures Worth(Extended(p.ledger, time), t) == Worth(p.ledger, t)
  {
    ExtendedWorth(p.ledger, time, t);
  }

  /** Worth plus what it stamps: unchanged, except for an incoming transfer. */
  lemma ActorBooks(p: Proc, a: Action, script: seq<Order>, opening: int, t: nat)
    requires Ready(p, script) && p.id != PARENT && ChildInv(p, opening) && Allowed(p, a, script)
    requires a.Recv? ==> !Rejected(Moved(p, a.msg), a.from, a.msg)
    ensures var out := Stamped(p, a, script);
            Worth(Do(p, a, script).ledger, t) + (if out.Sending? then Carries(out.frame, t) else 0)
            == Worth(p.ledger, t) + Booked(p, a, t)
  {
    if a.Recv? && p.pc.Running? && a.msg.kind.TRANSFER? {
      var q, o := Moved(p, a.msg), a.msg.payload.order;
      if SourceSide(q, a.from, o) {
        DebitedWorth(p.ledger, q.clock + 1, o.amount, t);
      } else {
        CreditedWorth(p.ledger, a.msg.ts, q.clock, o.amount, t);
      }
    } else if a.Recv? && p.pc.Running? && a.msg.kind.STOP? {
      ExtendWorth(p, opening, Moved(p, a.msg).clock, t);
    } else if a.Report? {
      ExtendWorth(p, opening, p.clock, t);
    }
  }

  /** A stamped transfer goes to exactly one other account. */
  lemma TransferTarget(p: Proc, a: Action, script: seq<Order>)
    requires Ready(p, script) && p.id != PARENT && Allowed(p, a, script)
    requires a.Recv? ==> !Rejected(Moved(p, a.msg), a.from, a.msg)
    ensures var out := Stamped(p, a, script);
            out.Sending? && out.frame.kind.TRANSFER? ==> 1 <= out.next == out.last <= p.n && out.next != p.id
  {
  }

  lemma OwnFlight(g: Global, s: Step, j: nat, t: nat)
    requires Formed(g) && Enabled(g, s) && s.k >= 1 && 1 <= j <= g.n && j != s.k
    ensures var out := Stamped(g.procs[s.k], s.a, g.script);
            Flight(Link(Apply(g, s), s.k, j), t) == Flight(Link(g, s.k, j), t) +
            (if out.Sending? && out.next <= j <= out.last then Carries(out.frame, t) else 0)
  {
    var out := Stamped(g.procs[s.k], s.a, g.script);
    StepMovesLinks(g, s, s.k, j);
    if out.Sending? && out.next <= j <= out.last {
      FlightAppend(Link(g, s.k, j), out.frame, t);
    } else {
      assert Link(g, s.k, j) + [] == Link(g, s.k, j);
    }
  }

  lemma OwnFlights(g: Global, tk: Token, s: Step, t: nat)
    requires Inv(g, tk) && Enabled(g, s) && s.k >= 1
    ensures var out := Stamped(g.procs[s.k], s.a, g.script);
            Sum(Flights(Apply(g, s), s.k, t)) ==
            Sum(Flights(g, s.k, t)) + (if out.Sending? then Carries(out.frame, t) else 0)
  {
    var h, k, out := Apply(g, s), s.k, Stamped(g.procs[s.k], s.a, g.script);
    if s.a.Recv? { Accepted(g, tk, s); }
    TransferTarget(g.procs[k], s.a, g.script);
    var before, after := Flights(g, k, t), Flights(h, k, t);
    forall j | 0 <= j <= g.n && !(out.Sending? && out.frame.kind.TRANSFER? && j == out.next)
      ensures after[j] == before[j]
    {
      if j != 0 && j != k { OwnFlight(g, s, j, t); }
    }
    if out.Sending? && out.frame.kind.TRANSFER? {
      OwnFlight(g, s, out.next, t);
      SumShift(before, after, out.next, Carries(out.frame, t));
    } else {
      assert after == before;
    }
  }

  lemma ActorHolding(g: Global, tk: Token, s: Step, t: nat)
    requires Inv(g, tk) && Enabled(g, s) && s.k >= 1
    ensures Holding(Apply(g, s), s.k, t) == Holding(g, s.k, t) + Booked(g.procs[s.k], s.a, t)
  {
    assert ChildInv(g.procs[s.k], g.opening[s.k]);
    if s.a.Recv? { Accepted(g, tk, s); }
    ActorBooks(g.procs[s.k], s.a, g.script, g.opening[s.k], t);
    OwnFlights(g, tk, s, t);
  }

  /** The account whose frame was received no longer has it on its way. */
  lemma SenderHolding(g: Global, tk: Token, s: Step, t: nat)
    requires Inv(g, tk) && Enabled(g, s) && s.a.Recv? && s.a.from >= 1 && s.k >= 1
    ensures Holding(Apply(g, s), s.a.from, t) == Holding(g, s.a.from, t) - Carries(s.a.msg, t)
  {
    var h, i, k := Apply(g, s), s.a.from, s.k;
    forall j | 1 <= j <= g.n && j != i
      ensures Flights(h, i, t)[j] == Flights(g, i, t)[j] - (if j == k then Carries(s.a.msg, t) else 0)
    {
      StepMovesLinks(g, s, i, j);
    }
    var v := Flights(h, i, t)[k];
    assert Flights(h, i, t) == Flights(g, i, t)[k := v];
    SumUpdate(Flights(g, i, t), k, v);
  }

  lemma BystanderHolding(g: Global, s: Step, i: nat, t: nat)
    requires Formed(g) && Enabled(g, s) && 1 <= i <= g.n && i != s.k
    requires s.a.Recv? ==> i != s.a.from || s.k == 0
    ensures Holding(Apply(g, s), i, t) == Holding(g, i, t)
  {
    var h := Apply(g, s);
    forall j | 1 <= j <= g.n && j != i ensures Flights(h, i, t)[j] == Flights(g, i, t)[j] {
      StepMovesLinks(g, s, i, j);
    }
    assert Flights(h, i, t) == Flights(g, i, t);
  }

  /** What arrives from another account and what is booked is the same. */
  lemma BookedIsCarried(g: Global, tk: Token, s: Step, t: nat)
    requires Inv(g, tk) && Enabled(g, s) && s.a.Recv? && s.k >= 1 && s.a.from >= 1
    ensures Booked(g.procs[s.k], s.a, t) == Carries(s.a.msg, t)
  {
    if !g.procs[s.k].pc.Running? { StartingChildAccepts(g, tk, s); }
  }

  /** Only the acting account and the one whose frame it takes are affected. */
  lemma OtherHoldings(g: Global, s: Step, t: nat)
    requires Formed(g) && Enabled(g, s)
    ensures forall i :: 0 <= i <= g.n && i != s.k && (s.a.Recv? ==> i != s.a.from || s.k == 0) ==>
              Holdings(Apply(g, s), t)[i] == Holdings(g, t)[i]
  {
    forall i | 1 <= i <= g.n && i != s.k && (s.a.Recv? ==> i != s.a.from || s.k == 0)
      ensures Holding(Apply(g, s), i, t) == Holding(g, i, t)
    {
      BystanderHolding(g, s, i, t);
    }
  }

  lemma ParentKeepsTotal(g: Global, s: Step, t: nat)
    requires Formed(g) && Enabled(g, s) && s.k == 0
    ensures Sum(Holdings(Apply(g, s), t)) == Sum(Holdings(g, t))
  {
    OtherHoldings(g, s, t);
    assert Holdings(Apply(g, s), t) == Holdings(g, t);
  }

  /** The account acts on its own, or on a word of the parent. */
  lemma LoneKeepsTotal(g: Global, tk: Token, s: Step, t: nat)
    requires Inv(g, tk) && Enabled(g, s) && s.k >= 1 && (s.a.Recv? ==> s.a.from == 0)
    ensures Sum(Holdings(Apply(g, s), t)) == Sum(Holdings(g, t))
  {
    OtherHoldings(g, s, t);
    ActorHolding(g, tk, s, t);
    assert Holdings(Apply(g, s), t) == Holdings(g, t);
  }

  /** What one account takes in is what the other no longer has on its way. */
  lemma ExchangeKeepsTotal(g: Global, tk: Token, s: Step, t: nat)
    requires Inv(g, tk) && Enabled(g, s) && s.k >= 1 && s.a.Recv? && s.a.from >= 1
    ensures Sum(Holdings(Apply(g, s), t)) == Sum(Holdings(g, t))
  {
    var k, i := s.k, s.a.from;
    OtherHoldings(g, s, t);
    ActorHolding(g, tk, s, t);
    SenderHolding(g, tk, s, t);
    BookedIsCarried(g, tk, s, t);
    var before, after := Holdings(g, t), Holdings(Apply(g, s), t);
    SumUpdate(before, k, after[k]);
    SumUpdate(before[k := after[k]], i, after[i]);
    assert after == before[k := after[k]][i := after[i]];
  }

  lemma StepKeepsTotal(g: Global, tk: Token, s: Step, t: nat)
    requires Inv(g, tk) && Enabled(g, s)
    ensures Sum(Holdings(Apply(g, s), t)) == Sum(Holdings(g, t))
  {
    if s.k == 0 { ParentKeepsTotal(g, s, t); }
    else if s.a.Recv? && s.a.from >= 1 { ExchangeKeepsTotal(g, tk, s, t); }
    else { LoneKeepsTotal(g, tk, s, t); }
  }

  lemma StepConserves(g: Global, tk: Token, s: Step)
    requires Inv(g, tk) && Enabled(g, s) && Conserved(g)
    ensures Conserved(Apply(g, s))
  {
    forall t: nat ensures Sum(Holdings(Apply(g, s), t)) == Sum(g.opening[0 := 0]) { StepKeepsTotal(g, tk, s, t); }
  }

  /** Conservation at every logical time, in every state of every run. */
  lemma {:induction false} Conservation(
      n: nat, script: seq<Order>, opening: seq<int>, states: seq<Global>, run: seq<Step>, x: nat)
    requires Behaviour(n, script, opening, states, run) && x <= |run|
    ensures Formed(states[x]) && states[x].n == n && states[x].opening == opening && Conserved(states[x])
  {
    if x == 0 {
      InitConserved(n, script, opening);
    } else {
      Conservation(n, script, opening, states, run, x - 1);
      var tk := InvAlways(n, script, opening, states, run, x - 1);
      assert StepAt(states, run, x - 1);
      StepConserves(states[x - 1], tk, run[x - 1]);
    }
  }
}
