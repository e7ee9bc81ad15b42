/** Instances of the accounting theorem: termination and the exact length of complete
    runs, and what a complete run costs under any tariff. */
module MutexCounts {
  import opened Wire
  import opened Sums
  import opened MutexProcess
  import opened MutexSystem
  import opened MutexInvariant
  import opened MutexProgress
  import opened MutexCost

  // ---------- what a complete run costs under a given tariff ----------

  /** Critical sections of all children 1..n together. */
  function TotalEntries(n: nat): nat {
    5 * n * (n + 1) / 2
  }

  lemma TotalEntriesStep(n: nat)
    requires n >= 1
    ensures TotalEntries(n) == TotalEntries(n - 1) + 5 * n
  {
    assert 5 * n * (n + 1) == 5 * (n - 1) * n + 2 * (5 * n);
  }

  function Term(c: Tariff, i: nat, kind: Kind, j: nat): nat {
    c(i, Wrote(kind, j)) + Landing(c, i, kind, j)
  }

  /** Targets lo..hi other than `i`. */
  function Others(i: nat, lo: nat, hi: nat): int {
    hi + 1 - lo - (if lo <= i <= hi then 1 else 0)
  }

  lemma TimesSum(x: int, y: int, w: int)
    ensures (x + y) * w == x * w + y * w
  {
  }

  lemma {:induction false} SpreadUniform(c: Tariff, i: nat, kind: Kind, lo: nat, hi: nat, w: nat)
    requires lo <= hi + 1
    requires forall j :: lo <= j <= hi && j != i ==> Term(c, i, kind, j) == w
    ensures Spread(c, i, kind, lo, hi) == Others(i, lo, hi) * w + (if lo <= i <= hi then c(i, Skipped) else 0)
    decreases hi + 1 - lo
  {
    if lo <= hi {
      SpreadUniform(c, i, kind, lo + 1, hi, w);
      if lo != i {
        assert Term(c, i, kind, lo) == w;
        assert Others(i, lo, hi) == Others(i, lo + 1, hi) + 1;
        TimesSum(Others(i, lo + 1, hi), 1, w);
      }
    }
  }

  /** Only target `x` is priced. */
  lemma {:induction false} SpreadSingle(c: Tariff, i: nat, kind: Kind, lo: nat, hi: nat, x: nat)
    requires forall j :: lo <= j <= hi && j != i && j != x ==> Term(c, i, kind, j) == 0
    requires c(i, Skipped) == 0 && x != i
    ensures Spread(c, i, kind, lo, hi) == if lo <= x <= hi then Term(c, i, kind, x) else 0
    decreases hi + 1 - lo
  {
    if lo <= hi {
      SpreadSingle(c, i, kind, lo + 1, hi, x);
      if lo != i && lo != x { assert Term(c, i, kind, lo) == 0; }
    }
  }

  lemma {:induction false} RoundsTimes(c: Tariff, i: nat, n: nat, m: nat)
    ensures RoundsCost(c, i, n, m) == m * RoundCost(c, i, n)
  {
    if m > 0 {
      RoundsTimes(c, i, n, m - 1);
      assert m * RoundCost(c, i, n) == (m - 1) * RoundCost(c, i, n) + RoundCost(c, i, n);
    }
  }

  /** Both barriers of child `i`. */
  function BarrierCost(c: Tariff, i: nat, n: nat): nat {
    c(i, Stamped(STARTED)) + Spread(c, i, STARTED, 0, n) + c(i, LeftBarrier)
    + c(i, Stamped(DONE)) + Spread(c, i, DONE, 0, n) + c(i, LeftBarrier)
  }

  lemma InitialFuture(c: Tariff, n: nat, i: nat)
    requires n >= 1 && i <= n
    ensures Future(c, Init(i, n)) ==
            if i == 0 then 2 * c(0, LeftBarrier) else BarrierCost(c, i, n) + 5 * i * RoundCost(c, i, n)
  {
    RoundsTimes(c, i, n, 5 * i);
  }

  lemma InitialAccount(c: Tariff, n: nat, i: nat)
    requires n >= 1 && i <= n
    ensures Payable(Initial(n))
    ensures Account(c, Initial(n), i) ==
            if i == 0 then 2 * c(0, LeftBarrier) else BarrierCost(c, i, n) + 5 * i * RoundCost(c, i, n)
  {
    InitInv(n);
    InvPayable(Initial(n));
    SumZero(Row(c, i, Initial(n).chan[i]));
    InitialFuture(c, n, i);
  }

  lemma {:induction false} SumOfRounds(s: seq<int>, b: int, r: int)
    requires |s| >= 1 && s[0] == 0 && forall i :: 1 <= i < |s| ==> s[i] == b + 5 * i * r
    ensures Sum(s) == (|s| - 1) * b + TotalEntries(|s| - 1) * r
  {
    var last := |s| - 1;
    if last == 0 {
      assert s[..0] == [];
    } else {
      SumOfRounds(s[..last], b, r);
      TotalEntriesStep(last);
      TimesSum(last - 1, 1, b);
      TimesSum(TotalEntries(last - 1), 5 * last, r);
      assert s[last] == b + 5 * last * r;
    }
  }

  predicate ChildPays(c: Tariff, n: nat, i: nat, b: nat, r: nat) {
    BarrierCost(c, i, n) == b && RoundCost(c, i, n) == r
  }

  /** Every child pays the same for a barrier pair and for a round. */
  lemma UniformTotal(c: Tariff, n: nat, b: nat, r: nat)
    requires n >= 1
    requires forall i :: 1 <= i <= n ==> ChildPays(c, n, i, b, r)
    ensures Payable(Initial(n))
    ensures Remaining(c, Initial(n)) == 2 * c(0, LeftBarrier) + n * b + TotalEntries(n) * r
  {
    InitialAccount(c, n, 0);
    var s := Accounts(c, Initial(n));
    forall i | 1 <= i <= n ensures s[i] == b + 5 * i * r {
      assert ChildPays(c, n, i, b, r);
      InitialAccount(c, n, i);
    }
    var z := s[0 := 0];
    SumOfRounds(z, b, r);
    SumUpdate(s, 0, 0);
  }

  predicate ChildPaysFor(c: Tariff, n: nat, i: nat, x: nat, own: nat, other: nat) {
    ChildPays(c, n, i, 0, if i == x then own else other)
  }

  lemma SumPickedOut(s: seq<int>, x: nat, own: int, other: int)
    requires 1 <= x < |s| && s[0] == 0
    requires s[x] == 5 * x * own && forall i :: 1 <= i < |s| && i != x ==> s[i] == 5 * i * other
    ensures Sum(s) == TotalEntries(|s| - 1) * other + 5 * x * own - 5 * x * other
  {
    var z := s[x := 5 * x * other];
    forall i | 1 <= i < |z| ensures z[i] == 0 + 5 * i * other { }
    SumOfRounds(z, 0, other);
    SumUpdate(s, x, 5 * x * other);
  }

  /** A single child `x` pays `own` per round, every other one `other`; barriers are free. */
  lemma SingledOutTotal(c: Tariff, n: nat, x: nat, own: nat, other: nat)
    requires 1 <= x <= n && c(0, LeftBarrier) == 0
    requires forall i :: 1 <= i <= n ==> ChildPaysFor(c, n, i, x, own, other)
    ensures Payable(Initial(n))
    ensures Remaining(c, Initial(n)) == TotalEntries(n) * other + 5 * x * own - 5 * x * other
  {
    InitialAccount(c, n, 0);
    var s := Accounts(c, Initial(n));
    forall i | 1 <= i <= n ensures s[i] == if i == x then 5 * i * own else 5 * i * other {
      assert ChildPaysFor(c, n, i, x, own, other);
      InitialAccount(c, n, i);
    }
    SumPickedOut(s, x, own, other);
  }

  /** Costs of the four broadcasts when all targets are priced alike and skipping is
      priced `skip`. */
  lemma UniformChild(c: Tariff, n: nat, i: nat, skip: nat, a: nat, q: nat, r: nat)
    requires 1 <= i <= n && c(i, Skipped) == skip
    requires forall j :: 0 <= j <= n && j != i ==> Term(c, i, STARTED, j) == a && Term(c, i, DONE, j) == a
    requires forall j :: 1 <= j <= n && j != i ==> Term(c, i, CS_REQUEST, j) == q && Term(c, i, CS_RELEASE, j) == r
    ensures BarrierCost(c, i, n) ==
            c(i, Stamped(STARTED)) + c(i, Stamped(DONE)) + 2 * c(i, LeftBarrier) + 2 * (n * a) + 2 * skip
    ensures RoundCost(c, i, n) ==
            c(i, Stamped(CS_REQUEST)) + c(i, Stamped(CS_RELEASE)) + c(i, EnteredCs)
            + (n - 1) * q + (n - 1) * r + 2 * skip
  {
    SpreadUniform(c, i, STARTED, 0, n, a);
    SpreadUniform(c, i, DONE, 0, n, a);
    SpreadUniform(c, i, CS_REQUEST, 1, n, q);
    SpreadUniform(c, i, CS_RELEASE, 1, n, r);
  }

  // ---------- termination and the length of runs ----------

  /** Every step costs one. */
  const ONE_PER_STEP: Tariff := (k: nat, e: Charge) => if e == Stamped(CS_REPLY) then 0 else 1

  /** Steps of a complete run with `n` children. */
  function RunLength(n: nat): int {
    2 + n * (4 * n + 6) + TotalEntries(n) * (6 * n - 1)
  }

  lemma UnitPrice(p: Proc, a: Action)
    requires Shaped(p) && Allowed(p, a)
    ensures Price(ONE_PER_STEP, p, a) == 1
  {
  }

  lemma {:induction false} PaidIsLength(n: nat, states: seq<Global>, run: seq<Step>, t: nat)
    requires Behaviour(n, states, run) && t <= |run|
    ensures Paid(ONE_PER_STEP, n, states, run, t) == t
  {
    if t > 0 {
      PaidIsLength(n, states, run, t - 1);
      assert StepAt(states, run, t - 1);
      UnitPrice(states[t - 1].procs[run[t - 1].k], run[t - 1].a);
    }
  }

  lemma UnitTerm(i: nat, kind: Kind, j: nat)
    ensures Term(ONE_PER_STEP, i, kind, j) == if kind.CS_REQUEST? then 4 else 2
  {
  }

  lemma UnitChild(n: nat, i: nat)
    requires 1 <= i <= n
    ensures ChildPays(ONE_PER_STEP, n, i, 4 * n + 6, 6 * n - 1)
  {
    forall j, kind ensures Term(ONE_PER_STEP, i, kind, j) == if kind.CS_REQUEST? then 4 else 2 {
      UnitTerm(i, kind, j);
    }
    UniformChild(ONE_PER_STEP, n, i, 1, 2, 4, 2);
  }

  lemma StepsInTotal(n: nat)
    requires n >= 1
    ensures Payable(Initial(n)) && Remaining(ONE_PER_STEP, Initial(n)) == RunLength(n)
  {
    var b, r := 4 * n + 6, 6 * n - 1;
    forall i | 1 <= i <= n ensures ChildPays(ONE_PER_STEP, n, i, b, r) { UnitChild(n, i); }
    UniformTotal(ONE_PER_STEP, n, b, r);
  }

  /** With a step still possible, something remains to be paid. */
  lemma MovableOwes(g: Global)
    requires Inv(g) && !Stuck(g)
    ensures Payable(g) && Remaining(ONE_PER_STEP, g) > 0
  {
    var s :| Enabled(g, s);
    StepPays(ONE_PER_STEP, g, s);
    UnitPrice(g.procs[s.k], s.a);
    StepKeepsInv(g, s);
    RemainingNonNegative(ONE_PER_STEP, Apply(g, s));
  }

  lemma StuckOwesNothing(c: Tariff, g: Global)
    requires Inv(g) && Stuck(g)
    ensures Payable(g) && Remaining(c, g) == 0
  {
    forall k | 0 <= k <= g.n ensures g.procs[k].pc.Exited? { StuckMeansDone(g, k); }
    NothingRemains(c, g);
  }

  /** Every run terminates: it has at most RunLength(n) steps, and it has exactly that
      many if and only if nothing more can happen. */
  lemma Termination(n: nat, states: seq<Global>, run: seq<Step>)
    requires Behaviour(n, states, run)
    ensures Inv(states[|run|])
    ensures |run| <= RunLength(n)
    ensures |run| == RunLength(n) <==> Stuck(states[|run|])
  {
    var c, g := ONE_PER_STEP, states[|run|];
    InvAlways(n, states, run, |run|);
    StepsInTotal(n);
    PaidIsLength(n, states, run, |run|);
    PaidPlusRemaining(c, n, states, run, |run|);
    RemainingNonNegative(c, g);
    if Stuck(g) { StuckOwesNothing(c, g); } else { MovableOwes(g); }
  }

  /** A run that cannot go on has paid exactly what was due at the start. */
  lemma PaidInFull(c: Tariff, n: nat, states: seq<Global>, run: seq<Step>)
    requires Behaviour(n, states, run) && Formed(states[|run|]) && Stuck(states[|run|])
    ensures Payable(Initial(n)) && Paid(c, n, states, run, |run|) == Remaining(c, Initial(n))
  {
    InvAlways(n, states, run, |run|);
    PaidPlusRemaining(c, n, states, run, |run|);
    StuckOwesNothing(c, states[|run|]);
  }

  /** A run that cannot go on has done all the work and cleaned up after itself. */
  lemma CompleteRun(n: nat, states: seq<Global>, run: seq<Step>, i: nat, j: nat)
    requires Behaviour(n, states, run) && Formed(states[|run|]) && Stuck(states[|run|])
    requires i <= n && 1 <= j <= n && i != j
    ensures var g := states[|run|];
            && Formed(g) && g.n == n
            && g.procs[i].pc.Exited? && g.procs[j].pc.Exited?
            && g.procs[j].rounds == 5 * j
            && g.chan[i][j] == [] && g.chan[j][i] == []
            && !g.procs[i].queued[j] && !g.procs[j].queued[j]
  {
    var g := states[|run|];
    InvAlways(n, states, run, |run|);
    forall k | 0 <= k <= g.n ensures g.procs[k].pc.Exited? { StuckMeansDone(g, k); }
    FinishedState(g, i, j);
  }
}
