/** What a run still has to pay.  Under any tariff that prices single events, the
    price of a step is exactly what the outstanding amount drops by.  Termination,
    the length of complete runs and all message counts are instances. */
module MutexCost {
  import opened Wire
  import opened Sums
  import opened MutexProcess
  import opened MutexSystem
  import opened MutexInvariant
  import opened MutexSafety

  datatype Charge =
    | Stamped(kind: Kind) | Wrote(kind: Kind, to: nat) | Skipped | Received(kind: Kind, from: nat)
    | EnteredCs | LeftBarrier

  /** A price per process and event. */
  type Tariff = (nat, Charge) -> nat

  function Price(c: Tariff, p: Proc, a: Action): nat
    requires Shaped(p) && Allowed(p, a)
  {
    match a
    case Start(_) => c(p.id, Stamped(STARTED))
    case LeaveStarted => c(p.id, LeftBarrier)
    case Request => c(p.id, Stamped(CS_REQUEST))
    case Enter => c(p.id, EnteredCs)
    case Exit => c(p.id, Stamped(CS_RELEASE))
    case Finish(_) => c(p.id, Stamped(DONE))
    case LeaveDone => c(p.id, LeftBarrier)
    case Write => if p.out.next == p.id then c(p.id, Skipped) else c(p.id, Wrote(p.out.frame.kind, p.out.next))
    case Recv(from, m) =>
      c(p.id, Received(m.kind, from)) + (if m.kind.CS_REQUEST? then c(p.id, Stamped(CS_REPLY)) else 0)
  }

  /** Price of everything a frame on its way from `i` to `j` still causes. */
  function Landing(c: Tariff, i: nat, kind: Kind, j: nat): nat {
    c(j, Received(kind, i)) +
    (if kind.CS_REQUEST?
     then c(j, Stamped(CS_REPLY)) + c(j, Wrote(CS_REPLY, i)) + c(i, Received(CS_REPLY, j)) else 0)
  }

  /** Price of writing a frame to targets lo..hi and of what follows from that. */
  function Spread(c: Tariff, i: nat, kind: Kind, lo: nat, hi: nat): nat
    decreases hi + 1 - lo
  {
    if lo > hi then 0
    else (if lo == i then c(i, Skipped) else c(i, Wrote(kind, lo)) + Landing(c, i, kind, lo))
         + Spread(c, i, kind, lo + 1, hi)
  }

  function LeaveCost(c: Tariff, i: nat, n: nat): nat {
    c(i, Stamped(CS_RELEASE)) + Spread(c, i, CS_RELEASE, 1, n)
  }

  function RoundCost(c: Tariff, i: nat, n: nat): nat {
    c(i, Stamped(CS_REQUEST)) + Spread(c, i, CS_REQUEST, 1, n) + c(i, EnteredCs) + LeaveCost(c, i, n)
  }

  function RoundsCost(c: Tariff, i: nat, n: nat, m: nat): nat {
    if m == 0 then 0 else RoundCost(c, i, n) + RoundsCost(c, i, n, m - 1)
  }

  /** Price of the remaining rounds and the final barrier. */
  function WorkCost(c: Tariff, i: nat, n: nat, m: nat): nat {
    RoundsCost(c, i, n, m) + c(i, Stamped(DONE)) + Spread(c, i, DONE, 0, n) + c(i, LeftBarrier)
  }

  /** Price of what the process itself will still initiate. */
  function Future(c: Tariff, p: Proc): nat
    requires p.rounds <= Rounds(p)
  {
    var i, n, m := p.id, p.n, Rounds(p) - p.rounds;
    match p.pc
    case Boot =>
      c(i, Stamped(STARTED)) + Spread(c, i, STARTED, 0, n) + c(i, LeftBarrier) + WorkCost(c, i, n, m)
    case AwaitStarted =>
      c(i, LeftBarrier) + (if i == PARENT then c(i, LeftBarrier) else WorkCost(c, i, n, m))
    case Idle => WorkCost(c, i, n, m)
    case AwaitCs =>
      c(i, EnteredCs) + LeaveCost(c, i, n) + (if m == 0 then 0 else WorkCost(c, i, n, m - 1))
    case InCs => LeaveCost(c, i, n) + (if m == 0 then 0 else WorkCost(c, i, n, m - 1))
    case AwaitDone => c(i, LeftBarrier)
    case _ => 0
  }

  function OutCost(c: Tariff, p: Proc): nat {
    match p.out
    case Quiet => 0
    case Sending(m, next, last) => Spread(c, p.id, m.kind, next, last)
  }

  function QueueCost(c: Tariff, i: nat, q: seq<Msg>, j: nat): nat {
    if q == [] then 0 else Landing(c, i, q[0].kind, j) + QueueCost(c, i, q[1..], j)
  }

  function Row(c: Tariff, i: nat, row: seq<seq<Msg>>): seq<int> {
    seq(|row|, j requires 0 <= j < |row| => QueueCost(c, i, row[j], j))
  }

  ghost predicate Payable(g: Global) {
    && Formed(g) && forall i :: 0 <= i <= g.n ==> g.procs[i].rounds <= Rounds(g.procs[i])
  }

  ghost function Account(c: Tariff, g: Global, i: nat): int
    requires Payable(g) && i <= g.n
  {
    Future(c, g.procs[i]) + OutCost(c, g.procs[i]) + Sum(Row(c, i, g.chan[i]))
  }

  ghost function Accounts(c: Tariff, g: Global): seq<int>
    requires Payable(g)
  {
    seq(g.n + 1, i requires 0 <= i <= g.n => Account(c, g, i))
  }

  /** Everything that remains to be paid. */
  ghost function Remaining(c: Tariff, g: Global): int
    requires Payable(g)
  {
    Sum(Accounts(c, g))
  }

  lemma {:induction false} QueueAppend(c: Tariff, i: nat, q: seq<Msg>, m: Msg, j: nat)
    ensures QueueCost(c, i, q + [m], j) == QueueCost(c, i, q, j) + Landing(c, i, m.kind, j)
  {
    if q == [] {
      assert q + [m] == [m];
    } else {
      assert (q + [m])[1..] == q[1..] + [m];
      QueueAppend(c, i, q[1..], m, j);
    }
  }

  lemma RowPush(c: Tariff, i: nat, row: seq<seq<Msg>>, j: nat, m: Msg)
    requires j < |row|
    ensures Sum(Row(c, i, row[j := row[j] + [m]])) == Sum(Row(c, i, row)) + Landing(c, i, m.kind, j)
  {
    QueueAppend(c, i, row[j], m, j);
    var v := QueueCost(c, i, row[j] + [m], j);
    assert Row(c, i, row[j := row[j] + [m]]) == Row(c, i, row)[j := v];
    SumUpdate(Row(c, i, row), j, v);
  }

  lemma RowPop(c: Tariff, i: nat, row: seq<seq<Msg>>, j: nat)
    requires j < |row| && row[j] != []
    ensures Sum(Row(c, i, row)) == Sum(Row(c, i, row[j := row[j][1..]])) + Landing(c, i, row[j][0].kind, j)
  {
    var v := QueueCost(c, i, row[j][1..], j);
    assert Row(c, i, row[j := row[j][1..]]) == Row(c, i, row)[j := v];
    SumUpdate(Row(c, i, row), j, v);
  }

  lemma SectionPays(c: Tariff, p: Proc, a: Action)
    requires Shaped(p) && Allowed(p, a) && (a.Request? || a.Enter? || a.Exit?)
    requires p.id != PARENT && ChildInv(p)
    ensures Do(p, a).rounds <= Rounds(p)
    ensures Future(c, p) + OutCost(c, p) == Future(c, Do(p, a)) + OutCost(c, Do(p, a)) + Price(c, p, a)
  {
    match a
    case Request =>
    case Enter =>
    case Exit =>
  }

  lemma BarrierPays(c: Tariff, p: Proc, a: Action)
    requires Shaped(p) && Allowed(p, a) && (a.Start? || a.Finish? || a.LeaveStarted? || a.LeaveDone?)
    requires if p.id == PARENT then ParentInv(p) else ChildInv(p)
    requires p.rounds <= Rounds(p)
    ensures Do(p, a).rounds <= Rounds(p)
    ensures Future(c, p) + OutCost(c, p) == Future(c, Do(p, a)) + OutCost(c, Do(p, a)) + Price(c, p, a)
  {
    match a
    case Start(_) =>
    case Finish(_) =>
    case LeaveStarted =>
    case LeaveDone =>
  }

  /** What the acting process pays out of its own account, channels aside. */
  lemma ActorPays(c: Tariff, p: Proc, a: Action)
    requires Shaped(p) && Allowed(p, a) && !a.Write? && !a.Recv?
    requires if p.id == PARENT then ParentInv(p) else ChildInv(p)
    requires p.rounds <= Rounds(p)
    ensures Do(p, a).rounds <= Rounds(p)
    ensures Future(c, p) + OutCost(c, p) ==
            Future(c, Do(p, a)) + OutCost(c, Do(p, a)) + Price(c, p, a)
  {
    if a.Request? || a.Enter? || a.Exit? { SectionPays(c, p, a); } else { BarrierPays(c, p, a); }
  }

  lemma WriterStays(c: Tariff, p: Proc)
    requires Shaped(p) && p.out.Sending? && p.rounds <= Rounds(p)
    ensures Future(c, Do(p, Write)) == Future(c, p)
  {
  }

  lemma WriterPays(c: Tariff, p: Proc)
    requires Shaped(p) && p.out.Sending? && p.rounds <= Rounds(p)
    ensures OutCost(c, p) ==
            OutCost(c, Do(p, Write)) + Price(c, p, Write)
            + (if p.out.next == p.id then 0 else Landing(c, p.id, p.out.frame.kind, p.out.next))
    ensures Future(c, Do(p, Write)) == Future(c, p)
  {
    WriterStays(c, p);
    if p.out.next == p.out.last {
      assert Spread(c, p.id, p.out.frame.kind, p.out.next + 1, p.out.last) == 0;
    }
  }

  lemma SpreadOne(c: Tariff, i: nat, kind: Kind, j: nat)
    ensures Spread(c, i, kind, j, j) ==
            if j == i then c(i, Skipped) else c(i, Wrote(kind, j)) + Landing(c, i, kind, j)
  {
    assert Spread(c, i, kind, j + 1, j) == 0;
  }

  lemma ReceiverPays(c: Tariff, p: Proc, from: nat, m: Msg)
    requires Shaped(p) && Allowed(p, Recv(from, m)) && p.rounds <= Rounds(p) && !Rejected(p, from, m)
    ensures Future(c, Do(p, Recv(from, m))) == Future(c, p)
    ensures OutCost(c, Do(p, Recv(from, m))) + Price(c, p, Recv(from, m))
            == OutCost(c, p) + Landing(c, from, m.kind, p.id)
  {
    DispatchReceives(p, from, m);
    ReplyOnly(p, from, m);
    SpreadOne(c, p.id, CS_REPLY, from);
  }

  lemma InvPayable(g: Global)
    requires Inv(g)
    ensures Payable(g)
  {
    forall i | 0 <= i <= g.n ensures g.procs[i].rounds <= Rounds(g.procs[i]) {
      if i >= 1 { assert ChildInv(g.procs[i]); }
    }
  }

  lemma ActorAccount(c: Tariff, g: Global, s: Step)
    requires Payable(g) && Enabled(g, s) && !s.a.Write? && !s.a.Recv?
    requires if s.k == 0 then ParentInv(g.procs[0]) else ChildInv(g.procs[s.k])
    ensures Payable(Apply(g, s))
    ensures Account(c, g, s.k) == Account(c, Apply(g, s), s.k) + Price(c, g.procs[s.k], s.a)
  {
    ActorPays(c, g.procs[s.k], s.a);
  }

  lemma OtherAccount(c: Tariff, g: Global, s: Step, i: nat)
    requires Payable(g) && Enabled(g, s) && Payable(Apply(g, s)) && i <= g.n && i != s.k
    requires s.a.Recv? ==> i != s.a.from
    ensures Account(c, Apply(g, s), i) == Account(c, g, i)
  {
  }

  /** Everybody but the acting process and the sender of what it receives. */
  lemma OtherAccounts(c: Tariff, g: Global, s: Step)
    requires Payable(g) && Enabled(g, s) && Payable(Apply(g, s))
    ensures forall i :: 0 <= i <= g.n && i != s.k && (s.a.Recv? ==> i != s.a.from) ==>
              Accounts(c, Apply(g, s))[i] == Accounts(c, g)[i]
  {
    forall i | 0 <= i <= g.n && i != s.k && (s.a.Recv? ==> i != s.a.from)
      ensures Account(c, Apply(g, s), i) == Account(c, g, i)
    {
      OtherAccount(c, g, s, i);
    }
  }

  lemma LocalStepPays(c: Tariff, g: Global, s: Step)
    requires Payable(g) && Enabled(g, s) && !s.a.Write? && !s.a.Recv?
    requires if s.k == 0 then ParentInv(g.procs[0]) else ChildInv(g.procs[s.k])
    ensures Payable(Apply(g, s))
    ensures Remaining(c, g) == Remaining(c, Apply(g, s)) + Price(c, g.procs[s.k], s.a)
  {
    ActorAccount(c, g, s);
    OtherAccounts(c, g, s);
    var price: int := Price(c, g.procs[s.k], s.a);
    SumShift(Accounts(c, g), Accounts(c, Apply(g, s)), s.k, -price);
  }

  lemma WriterAccount(c: Tariff, g: Global, s: Step)
    requires Payable(g) && Enabled(g, s) && s.a.Write? && Payable(Apply(g, s))
    ensures Account(c, g, s.k) == Account(c, Apply(g, s), s.k) + Price(c, g.procs[s.k], s.a)
  {
    var p := g.procs[s.k];
    WriterPays(c, p);
    if p.out.next != s.k { RowPush(c, s.k, g.chan[s.k], p.out.next, p.out.frame); }
  }

  lemma WriteStepPays(c: Tariff, g: Global, s: Step)
    requires Payable(g) && Enabled(g, s) && s.a.Write?
    ensures Payable(Apply(g, s))
    ensures Remaining(c, g) == Remaining(c, Apply(g, s)) + Price(c, g.procs[s.k], s.a)
  {
    assert Apply(g, s).procs[s.k].rounds == g.procs[s.k].rounds;
    WriterAccount(c, g, s);
    OtherAccounts(c, g, s);
    var price: int := Price(c, g.procs[s.k], s.a);
    SumShift(Accounts(c, g), Accounts(c, Apply(g, s)), s.k, -price);
  }

  lemma ReceiverAccount(c: Tariff, g: Global, s: Step)
    requires Payable(g) && Enabled(g, s) && s.a.Recv? && Payable(Apply(g, s))
    requires !Rejected(g.procs[s.k], s.a.from, s.a.msg)
    ensures Account(c, Apply(g, s), s.k) + Price(c, g.procs[s.k], s.a) ==
            Account(c, g, s.k) + Landing(c, s.a.from, s.a.msg.kind, s.k)
  {
    ReceiverPays(c, g.procs[s.k], s.a.from, s.a.msg);
  }

  lemma SenderAccount(c: Tariff, g: Global, s: Step)
    requires Payable(g) && Enabled(g, s) && s.a.Recv? && Payable(Apply(g, s))
    ensures Account(c, Apply(g, s), s.a.from) + Landing(c, s.a.from, s.a.msg.kind, s.k) == Account(c, g, s.a.from)
  {
    RowPop(c, s.a.from, g.chan[s.a.from], s.k);
  }

  lemma ReceptionKeepsRounds(g: Global, s: Step)
    requires Payable(g) && Enabled(g, s) && s.a.Recv?
    ensures Payable(Apply(g, s))
  {
    assert Apply(g, s).procs[s.k].rounds == g.procs[s.k].rounds;
  }

  lemma RecvStepPays(c: Tariff, g: Global, s: Step)
    requires Payable(g) && Enabled(g, s) && s.a.Recv? && !Rejected(g.procs[s.k], s.a.from, s.a.msg)
    ensures Payable(Apply(g, s))
    ensures Remaining(c, g) == Remaining(c, Apply(g, s)) + Price(c, g.procs[s.k], s.a)
  {
    var landing: int, price: int := Landing(c, s.a.from, s.a.msg.kind, s.k), Price(c, g.procs[s.k], s.a);
    ReceptionKeepsRounds(g, s);
    ReceiverAccount(c, g, s);
    SenderAccount(c, g, s);
    OtherAccounts(c, g, s);
    SumExchange(Accounts(c, g), Accounts(c, Apply(g, s)),
                s.k, landing - price, s.a.from, -landing);
  }

  /** The books balance on every step. */
  lemma StepPays(c: Tariff, g: Global, s: Step)
    requires Inv(g) && Enabled(g, s)
    ensures Payable(g) && Payable(Apply(g, s))
    ensures Remaining(c, g) == Remaining(c, Apply(g, s)) + Price(c, g.procs[s.k], s.a)
  {
    InvPayable(g);
    if s.a.Write? {
      WriteStepPays(c, g, s);
    } else if s.a.Recv? {
      if s.k >= 1 { ChildAccepts(g, s); } else { ParentAccepts(g, s); }
      RecvStepPays(c, g, s);
    } else {
      assert s.k >= 1 ==> ChildInv(g.procs[s.k]);
      LocalStepPays(c, g, s);
    }
  }

  /** What the first `t` steps of a run have cost. */
  ghost function Paid(c: Tariff, n: nat, states: seq<Global>, run: seq<Step>, t: nat): nat
    requires Behaviour(n, states, run) && t <= |run|
  {
    if t == 0 then 0
    else
      assert StepAt(states, run, t - 1);
      Paid(c, n, states, run, t - 1) + Price(c, states[t - 1].procs[run[t - 1].k], run[t - 1].a)
  }

  lemma InvPayableAt(n: nat, states: seq<Global>, run: seq<Step>, t: nat)
    requires Behaviour(n, states, run) && t <= |run|
    ensures Payable(states[t])
  {
    InvAlways(n, states, run, t);
    InvPayable(states[t]);
  }

  /** One step of a run: paid from what remained. */
  lemma PaidNext(c: Tariff, n: nat, states: seq<Global>, run: seq<Step>, t: nat)
    requires Behaviour(n, states, run) && t < |run|
    ensures Payable(states[t]) && Payable(states[t + 1])
    ensures Paid(c, n, states, run, t + 1) + Remaining(c, states[t + 1])
            == Paid(c, n, states, run, t) + Remaining(c, states[t])
  {
    assert StepAt(states, run, t);
    InvAlways(n, states, run, t);
    StepPays(c, states[t], run[t]);
  }

  /** Paid so far plus remaining is the same at every point of every run. */
  lemma {:induction false} PaidPlusRemaining(c: Tariff, n: nat, states: seq<Global>, run: seq<Step>, t: nat)
    requires Behaviour(n, states, run) && t <= |run|
    ensures Payable(states[t]) && Payable(Initial(n))
    ensures Paid(c, n, states, run, t) + Remaining(c, states[t]) == Remaining(c, Initial(n))
  {
    InvPayableAt(n, states, run, 0);
    if t > 0 {
      PaidPlusRemaining(c, n, states, run, t - 1);
      PaidNext(c, n, states, run, t - 1);
    }
  }

  lemma RemainingNonNegative(c: Tariff, g: Global)
    requires Inv(g)
    ensures Payable(g) && Remaining(c, g) >= 0
  {
    InvPayable(g);
    forall i | 0 <= i <= g.n ensures Account(c, g, i) >= 0 {
      SumNonNegative(Row(c, i, g.chan[i]));
    }
    SumNonNegative(Accounts(c, g));
  }

  /** A run in which everyone has exited owes nothing. */
  lemma NothingRemains(c: Tariff, g: Global)
    requires Inv(g) && forall k :: 0 <= k <= g.n ==> g.procs[k].pc.Exited?
    ensures Payable(g) && Remaining(c, g) == 0
  {
    InvPayable(g);
    forall i | 0 <= i <= g.n ensures Account(c, g, i) == 0 {
      assert i >= 1 ==> ChildInv(g.procs[i]);
      forall j | 0 <= j <= g.n ensures g.chan[i][j] == [] {
        if i != j { NothingForTheExited(g, i, j); }
      }
      SumZero(Row(c, i, g.chan[i]));
    }
    SumZero(Accounts(c, g));
  }
}
