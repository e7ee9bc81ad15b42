/** Exact message counts of complete runs. */
module MutexMessages {
  import opened Wire
  import opened MutexProcess
  import opened MutexSystem
  import opened MutexInvariant
  import opened MutexProgress
  import opened MutexTrace
  import opened MutexCost
  import opened MutexCounts

  // ---------- the counters of one child ----------

  /** Price one for each frame of this kind that child `x` writes (or receives). */
  function Counter(x: nat, kind: Kind, sending: bool): Tariff {
    (k: nat, e: Charge) =>
      if k == x && ((sending && e.Wrote? && e.kind == kind) || (!sending && e.Received? && e.kind == kind))
      then 1 else 0
  }

  function Counted(p: Proc, kind: Kind, sending: bool): nat {
    var t := if sending then p.stats.sent else p.stats.received;
    match kind
    case CS_REQUEST => t.request
    case CS_REPLY => t.reply
    case CS_RELEASE => t.release
    case _ => 0
  }

  lemma CounterStep(p: Proc, a: Action, kind: Kind, sending: bool)
    requires Shaped(p) && Allowed(p, a) && IsCs(kind)
    ensures Counted(Do(p, a), kind, sending) == Counted(p, kind, sending) + Price(Counter(p.id, kind, sending), p, a)
  {
    match a
    case Recv(_, m) =>
      assert Do(p, a).stats == Delivered(p, m).stats;
    case Write =>
    case _ =>
  }

  lemma CounterElsewhere(p: Proc, a: Action, x: nat, kind: Kind, sending: bool)
    requires Shaped(p) && Allowed(p, a) && p.id != x
    ensures Price(Counter(x, kind, sending), p, a) == 0
  {
  }

  lemma CounterGlobalStep(g: Global, s: Step, x: nat, kind: Kind, sending: bool)
    requires Formed(g) && Enabled(g, s) && x <= g.n && IsCs(kind)
    ensures Counted(Apply(g, s).procs[x], kind, sending) ==
            Counted(g.procs[x], kind, sending) + Price(Counter(x, kind, sending), g.procs[s.k], s.a)
  {
    if s.k == x {
      CounterStep(g.procs[x], s.a, kind, sending);
    } else {
      CounterElsewhere(g.procs[s.k], s.a, x, kind, sending);
    }
  }

  lemma CounterNext(
      n: nat, states: seq<Global>, run: seq<Step>, t: nat, x: nat, kind: Kind, sending: bool)
    requires Behaviour(n, states, run) && t < |run| && x <= n && IsCs(kind)
    requires Formed(states[t]) && states[t].n == n && Formed(states[t + 1]) && states[t + 1].n == n
    requires Counted(states[t].procs[x], kind, sending) == Paid(Counter(x, kind, sending), n, states, run, t)
    ensures Counted(states[t + 1].procs[x], kind, sending) == Paid(Counter(x, kind, sending), n, states, run, t + 1)
  {
    assert StepAt(states, run, t);
    CounterGlobalStep(states[t], run[t], x, kind, sending);
  }

  /** The statistics record what has been paid under the counting tariff. */
  lemma {:induction false} CounterIsPaid(
      n: nat, states: seq<Global>, run: seq<Step>, t: nat, x: nat, kind: Kind, sending: bool)
    requires Behaviour(n, states, run) && t <= |run| && 1 <= x <= n && IsCs(kind)
    ensures Formed(states[t]) && states[t].n == n
    ensures Counted(states[t].procs[x], kind, sending) == Paid(Counter(x, kind, sending), n, states, run, t)
  {
    InvAlways(n, states, run, t);
    if t > 0 {
      CounterIsPaid(n, states, run, t - 1, x, kind, sending);
      CounterNext(n, states, run, t - 1, x, kind, sending);
    }
  }

  /** Frames that belong to the requester's side of a round. */
  predicate Initiates(kind: Kind, sending: bool) {
    (kind.CS_REQUEST? && sending) || (kind.CS_REPLY? && !sending) || (kind.CS_RELEASE? && sending)
  }

  lemma CounterTerm(x: nat, kind: Kind, sending: bool, i: nat, frame: Kind, j: nat)
    requires IsCs(kind) && i != j
    requires frame in {STARTED, DONE, CS_REQUEST, CS_RELEASE}
    ensures Term(Counter(x, kind, sending), i, frame, j) ==
            if (if Initiates(kind, sending) then i else j) != x then 0
            else if kind.CS_RELEASE? then (if frame.CS_RELEASE? then 1 else 0)
            else (if frame.CS_REQUEST? then 1 else 0)
  {
  }

  lemma InitiatorPays(n: nat, x: nat, kind: Kind, sending: bool, i: nat)
    requires 1 <= x <= n && 1 <= i <= n && IsCs(kind) && Initiates(kind, sending)
    ensures ChildPaysFor(Counter(x, kind, sending), n, i, x, n - 1, 0)
  {
    var c := Counter(x, kind, sending);
    var q := if i == x && !kind.CS_RELEASE? then 1 else 0;
    var r := if i == x && kind.CS_RELEASE? then 1 else 0;
    forall j, frame | j != i && frame in {STARTED, DONE, CS_REQUEST, CS_RELEASE}
      ensures Term(c, i, frame, j) == if frame.CS_REQUEST? then q else if frame.CS_RELEASE? then r else 0
    {
      CounterTerm(x, kind, sending, i, frame, j);
    }
    UniformChild(c, n, i, 0, 0, q, r);
  }

  /** What child `i` pays for the counter of a peer that responds to it. */
  lemma OtherResponderPays(n: nat, x: nat, kind: Kind, sending: bool, i: nat)
    requires 1 <= x <= n && 1 <= i <= n && i != x && IsCs(kind) && !Initiates(kind, sending)
    ensures ChildPaysFor(Counter(x, kind, sending), n, i, x, 0, 1)
  {
    var c := Counter(x, kind, sending);
    forall j, frame | j != i && frame in {STARTED, DONE, CS_REQUEST, CS_RELEASE}
      ensures Term(c, i, frame, j) == if j != x || frame.STARTED? || frame.DONE? then 0 else Term(c, i, frame, x)
    {
      CounterTerm(x, kind, sending, i, frame, j);
    }
    SpreadUniform(c, i, STARTED, 0, n, 0);
    SpreadUniform(c, i, DONE, 0, n, 0);
    SpreadSingle(c, i, CS_REQUEST, 1, n, x);
    SpreadSingle(c, i, CS_RELEASE, 1, n, x);
    CounterTerm(x, kind, sending, i, CS_REQUEST, x);
    CounterTerm(x, kind, sending, i, CS_RELEASE, x);
    assert BarrierCost(c, i, n) == 0 && RoundCost(c, i, n) == 1;
  }

  lemma OwnResponderPays(n: nat, x: nat, kind: Kind, sending: bool)
    requires 1 <= x <= n && IsCs(kind) && !Initiates(kind, sending)
    ensures ChildPaysFor(Counter(x, kind, sending), n, x, x, 0, 1)
  {
    var c := Counter(x, kind, sending);
    forall j, frame | j != x && frame in {STARTED, DONE, CS_REQUEST, CS_RELEASE} ensures Term(c, x, frame, j) == 0 {
      CounterTerm(x, kind, sending, x, frame, j);
    }
    UniformChild(c, n, x, 0, 0, 0, 0);
  }

  lemma ResponderPays(n: nat, x: nat, kind: Kind, sending: bool, i: nat)
    requires 1 <= x <= n && 1 <= i <= n && IsCs(kind) && !Initiates(kind, sending)
    ensures ChildPaysFor(Counter(x, kind, sending), n, i, x, 0, 1)
  {
    if i == x { OwnResponderPays(n, x, kind, sending); } else { OtherResponderPays(n, x, kind, sending, i); }
  }

  /** In a complete run every counter of every child has its exact value: requests and
      releases sent and replies received count the own rounds once per peer; requests
      and releases received and replies sent count everybody else's rounds. */
  lemma ChildCounters(n: nat, states: seq<Global>, run: seq<Step>, x: nat, kind: Kind, sending: bool)
    requires Behaviour(n, states, run) && Formed(states[|run|]) && Stuck(states[|run|])
    requires 1 <= x <= n && IsCs(kind)
    ensures states[|run|].n == n
    ensures Counted(states[|run|].procs[x], kind, sending) ==
            if Initiates(kind, sending) then 5 * x * (n - 1) else TotalEntries(n) - 5 * x
  {
    var c := Counter(x, kind, sending);
    InvAlways(n, states, run, |run|);
    CounterIsPaid(n, states, run, |run|, x, kind, sending);
    PaidInFull(c, n, states, run);
    CounterTotal(n, x, kind, sending);
  }

  /** The same, counter by counter: a row of the statistics file. */
  lemma ChildStatistics(n: nat, states: seq<Global>, run: seq<Step>, x: nat)
    requires Behaviour(n, states, run) && Formed(states[|run|]) && Stuck(states[|run|]) && 1 <= x <= n
    ensures states[|run|].n == n
    ensures var s, own, others := states[|run|].procs[x].stats, 5 * x * (n - 1), 5 * n * (n + 1) / 2 - 5 * x;
            && s.sent.request == s.sent.release == s.received.reply == own
            && s.received.request == s.received.release == s.sent.reply == others
  {
    ChildCounters(n, states, run, x, CS_REQUEST, true);
    ChildCounters(n, states, run, x, CS_REPLY, true);
    ChildCounters(n, states, run, x, CS_RELEASE, true);
    ChildCounters(n, states, run, x, CS_REQUEST, false);
    ChildCounters(n, states, run, x, CS_REPLY, false);
    ChildCounters(n, states, run, x, CS_RELEASE, false);
  }

  lemma CounterTotal(n: nat, x: nat, kind: Kind, sending: bool)
    requires 1 <= x <= n && IsCs(kind)
    ensures Payable(Initial(n))
    ensures Remaining(Counter(x, kind, sending), Initial(n)) ==
            if Initiates(kind, sending) then 5 * x * (n - 1) else TotalEntries(n) - 5 * x
  {
    var c := Counter(x, kind, sending);
    var own, other := if Initiates(kind, sending) then n - 1 else 0, if Initiates(kind, sending) then 0 else 1;
    forall i | 1 <= i <= n ensures ChildPaysFor(c, n, i, x, own, other) {
      if Initiates(kind, sending) { InitiatorPays(n, x, kind, sending, i); }
      else { ResponderPays(n, x, kind, sending, i); }
    }
    SingledOutTotal(c, n, x, own, other);
  }

  /** Entries are counted exactly too, and agree with the trace. */
  lemma ChildEntries(n: nat, states: seq<Global>, run: seq<Step>, x: nat)
    requires Behaviour(n, states, run) && Formed(states[|run|]) && Stuck(states[|run|]) && 1 <= x <= n
    ensures states[|run|].n == n && states[|run|].procs[x].stats.entries == 5 * x
    ensures var v := Check(n, states[|run|].trace);
            v.Sound? && x < |v.records| && v.owner == 0 && v.records[x].completed == 5 * x
  {
    var g := states[|run|];
    TraceIsSound(n, states, run, |run|);
    forall k | 0 <= k <= n ensures g.procs[k].pc.Exited? { StuckMeansDone(g, k); }
    assert ChildInv(g.procs[x]);
    var owner := Check(n, g.trace).owner;
    assert owner >= 1 ==> ChildInv(g.procs[owner]);
  }

  // ---------- totals ----------

  const CS_SENT: Tariff := (k: nat, e: Charge) => if e.Wrote? && IsCs(e.kind) then 1 else 0
  const CS_RECEIVED: Tariff := (k: nat, e: Charge) => if e.Received? && IsCs(e.kind) then 1 else 0
  /** Communication events: a stamp or a delivery. */
  const EVENT: Tariff := (k: nat, e: Charge) => if e.Stamped? || e.Received? then 1 else 0

  lemma CsSentChild(n: nat, i: nat)
    requires 1 <= i <= n
    ensures ChildPays(CS_SENT, n, i, 0, 3 * (n - 1))
  {
    forall j, frame | j != i && frame in {STARTED, DONE, CS_REQUEST, CS_RELEASE}
      ensures Term(CS_SENT, i, frame, j) == if frame.CS_REQUEST? then 2 else if frame.CS_RELEASE? then 1 else 0 { }
    UniformChild(CS_SENT, n, i, 0, 0, 2, 1);
  }

  lemma CsReceivedChild(n: nat, i: nat)
    requires 1 <= i <= n
    ensures ChildPays(CS_RECEIVED, n, i, 0, 3 * (n - 1))
  {
    forall j, frame | j != i && frame in {STARTED, DONE, CS_REQUEST, CS_RELEASE}
      ensures Term(CS_RECEIVED, i, frame, j) == if frame.CS_REQUEST? then 2 else if frame.CS_RELEASE? then 1 else 0 { }
    UniformChild(CS_RECEIVED, n, i, 0, 0, 2, 1);
  }

  lemma EventChild(n: nat, i: nat)
    requires 1 <= i <= n
    ensures ChildPays(EVENT, n, i, 2 * n + 2, 4 * n - 2)
  {
    forall j, frame | j != i && frame in {STARTED, DONE, CS_REQUEST, CS_RELEASE}
      ensures Term(EVENT, i, frame, j) == if frame.CS_REQUEST? then 3 else 1 { }
    UniformChild(EVENT, n, i, 0, 1, 3, 1);
  }

  lemma CsSentTotal(n: nat)
    requires n >= 1
    ensures Payable(Initial(n)) && Remaining(CS_SENT, Initial(n)) == TotalEntries(n) * (3 * (n - 1))
  {
    var r := 3 * (n - 1);
    forall i | 1 <= i <= n ensures ChildPays(CS_SENT, n, i, 0, r) { CsSentChild(n, i); }
    UniformTotal(CS_SENT, n, 0, r);
  }

  lemma CsReceivedTotal(n: nat)
    requires n >= 1
    ensures Payable(Initial(n)) && Remaining(CS_RECEIVED, Initial(n)) == TotalEntries(n) * (3 * (n - 1))
  {
    var r := 3 * (n - 1);
    forall i | 1 <= i <= n ensures ChildPays(CS_RECEIVED, n, i, 0, r) { CsReceivedChild(n, i); }
    UniformTotal(CS_RECEIVED, n, 0, r);
  }

  /** Communication events of a complete run. */
  function EventsInTotal(n: nat): int {
    TotalEntries(n) * (4 * n - 2) + 2 * n + 2 * (n * n)
  }

  lemma BarrierEvents(n: nat)
    ensures n * (2 * n + 2) == 2 * n + 2 * (n * n)
  {
  }

  lemma EventsDue(n: nat, b: nat, r: nat)
    requires n >= 1 && b == 2 * n + 2 && r == 4 * n - 2
    ensures Payable(Initial(n)) && Remaining(EVENT, Initial(n)) == n * b + TotalEntries(n) * r
  {
    forall i | 1 <= i <= n ensures ChildPays(EVENT, n, i, b, r) { EventChild(n, i); }
    UniformTotal(EVENT, n, b, r);
  }

  lemma EventTotal(n: nat)
    requires n >= 1
    ensures Payable(Initial(n)) && Remaining(EVENT, Initial(n)) == EventsInTotal(n)
  {
    EventsDue(n, 2 * n + 2, 4 * n - 2);
    BarrierEvents(n);
  }

  /** A complete run sends and receives exactly 3(n - 1) messages per entry, and its
      communication events add up to EventsInTotal(n). */
  lemma MessageCost(n: nat, states: seq<Global>, run: seq<Step>)
    requires Behaviour(n, states, run) && Formed(states[|run|]) && Stuck(states[|run|])
    ensures Paid(CS_SENT, n, states, run, |run|) == TotalEntries(n) * (3 * (n - 1))
    ensures Paid(CS_RECEIVED, n, states, run, |run|) == TotalEntries(n) * (3 * (n - 1))
    ensures Paid(EVENT, n, states, run, |run|) == EventsInTotal(n)
  {
    CsSentTotal(n);
    CsReceivedTotal(n);
    EventTotal(n);
    PaidInFull(CS_SENT, n, states, run);
    PaidInFull(CS_RECEIVED, n, states, run);
    PaidInFull(EVENT, n, states, run);
  }
}
