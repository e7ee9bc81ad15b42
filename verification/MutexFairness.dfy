/** Bounded bypass: while a request waits, every other process enters at most twice. */
module MutexFairness {
  import opened Wire
  import opened MutexProcess
  import opened MutexSystem
  import opened MutexPair
  import opened MutexInvariant
  import opened MutexSafety
  import opened MutexTrace

  /** How often `j` has entered since `i` last asked. */
  function EntriesSince(trace: seq<Event>, i: nat, j: nat): nat {
    if trace == [] then 0
    else
      var e := trace[|trace| - 1];
      if e.Requested? && e.id == i then 0
      else EntriesSince(trace[..|trace| - 1], i, j) + (if e.Entered? && e.id == j then 1 else 0)
  }

  /** How often anybody has entered since `i` last asked. */
  function AllEntriesSince(trace: seq<Event>, i: nat): nat {
    if trace == [] then 0
    else
      var e := trace[|trace| - 1];
      if e.Requested? && e.id == i then 0
      else AllEntriesSince(trace[..|trace| - 1], i) + (if e.Entered? then 1 else 0)
  }

  lemma EntriesNext(trace: seq<Event>, e: Event, i: nat, j: nat)
    ensures EntriesSince(trace + [e], i, j) ==
            if e.Requested? && e.id == i then 0
            else EntriesSince(trace, i, j) + (if e.Entered? && e.id == j then 1 else 0)
  {
    assert (trace + [e])[..|trace|] == trace;
  }

  /** What `count` entries of the other process since the stamp `ts` say about it.
      `u` is its view towards the waiting process, `r` the link that carries the
      answers of the waiting process. */
  predicate Overtaken(count: nat, ts: int, u: View, inside: bool, r: seq<Msg>) {
    && count <= 2
    && (count >= 1 && u.requesting && !inside ==>
          u.ts > ts ||
          ((forall m :: m in r && m.kind.CS_REPLY? ==> m.ts > ts) && (u.replied ==> u.clock > ts)))
    && (count == 2 ==> u.clock > ts && (u.requesting && !inside ==> u.ts > ts))
  }

  ghost predicate BypassAt(g: Global, i: nat, j: nat)
    requires Formed(g) && Pair(g, i, j)
  {
    g.procs[i].requesting && !g.procs[i].inside ==>
      Overtaken(EntriesSince(g.trace, i, j), g.procs[i].stamp[i], ViewOf(g.procs[j], g.procs[i]),
                g.procs[j].inside, Link(g, i, j))
  }

  ghost predicate Bounded(g: Global)
    requires Formed(g)
  {
    forall i: nat, j: nat :: Pair(g, i, j) ==> BypassAt(g, i, j)
  }

  /** A new request of `i`: the count starts again. */
  lemma FreshRequest(g: Global, s: Step, j: nat)
    requires Formed(g) && Enabled(g, s) && s.a.Request? && Pair(g, s.k, j)
    ensures BypassAt(Apply(g, s), s.k, j)
  {
    EntriesNext(g.trace, NewEvents(g.procs[s.k], s.a)[0], s.k, j);
  }

  /** `j` enters ahead of `i`. */
  lemma OtherEnters(g: Global, s: Step, i: nat)
    requires Inv(g) && Enabled(g, s) && s.a.Enter? && Pair(g, i, s.k) && BypassAt(g, i, s.k)
    ensures BypassAt(Apply(g, s), i, s.k)
  {
    EntriesNext(g.trace, NewEvents(g.procs[s.k], s.a)[0], i, s.k);
    EntryIsMinimal(g, s, i);
    TableDecides(g.procs[s.k], i);
    QuietStepKeepsLinks(g, s, i, s.k);
  }

  /** `j` asks again: no answer of `i` to the new request exists yet. */
  lemma OtherRequests(g: Global, s: Step, i: nat)
    requires Formed(g) && Enabled(g, s) && s.a.Request? && Pair(g, i, s.k) && BypassAt(g, i, s.k)
    requires PairAt(g, s.k, i) && ChildInv(g.procs[s.k])
    ensures BypassAt(Apply(g, s), i, s.k)
  {
    EntriesNext(g.trace, NewEvents(g.procs[s.k], s.a)[0], i, s.k);
    BroadcastMovesLinks(g, s, i, s.k);
    KindsPresent(Link(g, i, s.k));
  }

  lemma OtherLeaves(g: Global, s: Step, i: nat)
    requires Formed(g) && Enabled(g, s) && s.a.Exit? && Pair(g, i, s.k) && BypassAt(g, i, s.k)
    ensures BypassAt(Apply(g, s), i, s.k)
  {
    EntriesNext(g.trace, NewEvents(g.procs[s.k], s.a)[0], i, s.k);
    BroadcastMovesLinks(g, s, i, s.k);
  }

  /** A third process, or `i` itself, produces a trace line that does not count. */
  lemma ThirdLine(g: Global, s: Step, i: nat, j: nat)
    requires Formed(g) && Enabled(g, s) && Pair(g, i, j) && BypassAt(g, i, j) && s.k != j
    requires s.a.Request? || s.a.Enter? || s.a.Exit?
    requires s.k == i ==> !s.a.Request?
    ensures BypassAt(Apply(g, s), i, j)
  {
    EntriesNext(g.trace, NewEvents(g.procs[s.k], s.a)[0], i, j);
    if s.a.Enter? { QuietStepKeepsLinks(g, s, i, j); } else { BroadcastMovesLinks(g, s, i, j); }
  }

  lemma NoLine(g: Global, s: Step, i: nat, j: nat)
    requires Inv(g) && Enabled(g, s) && Pair(g, i, j) && BypassAt(g, i, j)
    requires !s.a.Request? && !s.a.Enter? && !s.a.Exit? && !s.a.Recv?
    ensures BypassAt(Apply(g, s), i, j)
  {
    EventlessStep(g, s, i);
    EventlessStep(g, s, j);
    if s.a.Write? { WriteKeepsLinks(g, s, i, j); }
    else if s.a.Start? || s.a.Finish? { BroadcastMovesLinks(g, s, i, j); }
    else { QuietStepKeepsLinks(g, s, i, j); }
  }

  /** Delivery to `j` of a frame from `i`, to `i` of a frame from `j`, or elsewhere. */
  lemma Delivery(g: Global, s: Step, i: nat, j: nat)
    requires Inv(g) && Enabled(g, s) && Pair(g, i, j) && BypassAt(g, i, j) && s.a.Recv?
    ensures BypassAt(Apply(g, s), i, j)
  {
    EventlessStep(g, s, i);
    EventlessStep(g, s, j);
    RecvMovesLinks(g, s, i, j);
    assert ChildInv(g.procs[i]);
    if s.k >= 1 { ChildAccepts(g, s); }
  }

  lemma StepKeepsBounded(g: Global, s: Step, i: nat, j: nat)
    requires Inv(g) && Bounded(g) && Enabled(g, s) && Pair(g, i, j)
    ensures BypassAt(Apply(g, s), i, j)
  {
    assert BypassAt(g, i, j);
    if s.a.Recv? { Delivery(g, s, i, j); }
    else if !s.a.Request? && !s.a.Enter? && !s.a.Exit? { NoLine(g, s, i, j); }
    else if s.k == i && s.a.Request? { FreshRequest(g, s, j); }
    else if s.k != j { ThirdLine(g, s, i, j); }
    else if s.a.Enter? { OtherEnters(g, s, i); }
    else if s.a.Exit? { OtherLeaves(g, s, i); }
    else { assert PairAt(g, j, i); OtherRequests(g, s, i); }
  }

  lemma {:induction false} BoundedAlways(n: nat, states: seq<Global>, run: seq<Step>, t: nat)
    requires Behaviour(n, states, run) && t <= |run|
    ensures Inv(states[t]) && states[t].n == n && Bounded(states[t])
  {
    InvAlways(n, states, run, t);
    if t > 0 {
      BoundedAlways(n, states, run, t - 1);
      forall i: nat, j: nat | Pair(states[t], i, j) ensures BypassAt(states[t], i, j) {
        assert StepAt(states, run, t - 1);
        StepKeepsBounded(states[t - 1], run[t - 1], i, j);
      }
    }
  }

  // ---------- the total ----------

  /** Entries of processes 1..k since `i` last asked, added up. */
  function SumSince(trace: seq<Event>, i: nat, k: nat): nat {
    if k == 0 then 0 else SumSince(trace, i, k - 1) + EntriesSince(trace, i, k)
  }

  predicate Authored(trace: seq<Event>, n: nat) {
    forall e :: e in trace ==> 1 <= e.id <= n
  }

  lemma {:induction false} SumNext(trace: seq<Event>, e: Event, i: nat, k: nat)
    ensures SumSince(trace + [e], i, k) ==
            if e.Requested? && e.id == i then 0
            else SumSince(trace, i, k) + (if e.Entered? && 1 <= e.id <= k then 1 else 0)
  {
    if k > 0 {
      SumNext(trace, e, i, k - 1);
      EntriesNext(trace, e, i, k);
    }
  }

  lemma {:induction false} SumOfNothing(i: nat, k: nat)
    ensures SumSince([], i, k) == 0
  {
    if k > 0 { SumOfNothing(i, k - 1); }
  }

  lemma {:induction false} EverybodyCounted(trace: seq<Event>, i: nat, n: nat)
    requires Authored(trace, n)
    ensures AllEntriesSince(trace, i) == SumSince(trace, i, n)
  {
    if trace == [] {
      SumOfNothing(i, n);
    } else {
      var pre, e := trace[..|trace| - 1], trace[|trace| - 1];
      assert trace == pre + [e];
      assert e in trace;
      EverybodyCounted(pre, i, n);
      SumNext(pre, e, i, n);
    }
  }

  lemma {:induction false} SumBound(trace: seq<Event>, i: nat, k: nat)
    requires forall j :: 1 <= j <= k ==> EntriesSince(trace, i, j) <= if j == i then 0 else 2
    ensures SumSince(trace, i, k) <= if 1 <= i <= k then 2 * (k - 1) else 2 * k
  {
    if k > 0 { SumBound(trace, i, k - 1); }
  }

  /** A waiting process has not entered since it asked. */
  ghost predicate SelfWaits(g: Global)
    requires Formed(g)
  {
    && Authored(g.trace, g.n)
    && forall i :: 1 <= i <= g.n && g.procs[i].requesting && !g.procs[i].inside ==> EntriesSince(g.trace, i, i) == 0
  }

  lemma StepKeepsSelf(g: Global, s: Step)
    requires Inv(g) && Enabled(g, s) && SelfWaits(g)
    ensures SelfWaits(Apply(g, s))
  {
    var h := Apply(g, s);
    if s.a.Request? || s.a.Enter? || s.a.Exit? {
      if s.k == 0 { ParentNeverEnters(g, s); }
      forall i | 1 <= i <= h.n && h.procs[i].requesting && !h.procs[i].inside
        ensures EntriesSince(h.trace, i, i) == 0
      {
        EntriesNext(g.trace, NewEvents(g.procs[s.k], s.a)[0], i, i);
      }
    } else {
      forall i | 1 <= i <= h.n && h.procs[i].requesting && !h.procs[i].inside
        ensures EntriesSince(h.trace, i, i) == 0
      {
        EventlessStep(g, s, i);
      }
      EventlessStep(g, s, 1);
    }
  }

  lemma {:induction false} SelfAlways(n: nat, states: seq<Global>, run: seq<Step>, t: nat)
    requires Behaviour(n, states, run) && t <= |run|
    ensures Inv(states[t]) && states[t].n == n && SelfWaits(states[t])
  {
    InvAlways(n, states, run, t);
    if t > 0 {
      SelfAlways(n, states, run, t - 1);
      assert StepAt(states, run, t - 1);
      StepKeepsSelf(states[t - 1], run[t - 1]);
    }
  }

  /** Between a request and its grant every other process enters at most twice,
      so at most 2(n - 1) entries come first. */
  lemma BoundedBypass(n: nat, states: seq<Global>, run: seq<Step>, t: nat, i: nat)
    requires Behaviour(n, states, run) && t <= |run| && 1 <= i <= n
    ensures Inv(states[t]) && states[t].n == n
    ensures states[t].procs[i].requesting && !states[t].procs[i].inside ==>
              && (forall j :: 1 <= j <= n && j != i ==> EntriesSince(states[t].trace, i, j) <= 2)
              && AllEntriesSince(states[t].trace, i) <= 2 * (n - 1)
  {
    BoundedAlways(n, states, run, t);
    SelfAlways(n, states, run, t);
    var g := states[t];
    if g.procs[i].requesting && !g.procs[i].inside {
      forall j | 1 <= j <= n ensures EntriesSince(g.trace, i, j) <= if j == i then 0 else 2 {
        if j != i { assert BypassAt(g, i, j); }
      }
      EverybodyCounted(g.trace, i, n);
      SumBound(g.trace, i, n);
    }
  }
}
