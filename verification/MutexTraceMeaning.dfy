/** What an accepted trace says, line against line. */
module MutexTraceMeaning {
  import opened MutexProcess
  import opened MutexSystem
  import opened MutexTrace
  import opened MutexFairness

  lemma Front(n: nat, trace: seq<Event>)
    requires trace != [] && Check(n, trace).Sound?
    ensures Check(n, trace[..|trace| - 1]).Sound?
    ensures Check(n, trace) == Read(Check(n, trace[..|trace| - 1]), trace[|trace| - 1])
  {
  }

  lemma {:induction false} Records(n: nat, trace: seq<Event>)
    requires Check(n, trace).Sound?
    ensures |Check(n, trace).records| == n + 1
    ensures forall e :: e in trace ==> e.id <= n
  {
    if trace != [] {
      Front(n, trace);
      Records(n, trace[..|trace| - 1]);
      assert trace == trace[..|trace| - 1] + [trace[|trace| - 1]];
    }
  }

  lemma {:induction false} Prefix(n: nat, trace: seq<Event>, k: nat)
    requires Check(n, trace).Sound? && k <= |trace|
    ensures Check(n, trace[..k]).Sound?
  {
    if k < |trace| {
      Front(n, trace);
      assert trace[..|trace| - 1][..k] == trace[..k];
      Prefix(n, trace[..|trace| - 1], k);
    } else {
      assert trace[..k] == trace;
    }
  }

  /** What the checker knew when it read line `y`. */
  lemma ReadAt(n: nat, trace: seq<Event>, y: nat)
    requires Check(n, trace).Sound? && y < |trace|
    ensures Check(n, trace[..y]).Sound? && Read(Check(n, trace[..y]), trace[y]).Sound?
    ensures |Check(n, trace[..y]).records| == n + 1 && trace[y].id <= n
  {
    Prefix(n, trace, y + 1);
    assert trace[..y + 1][..y] == trace[..y];
    Front(n, trace[..y + 1]);
    Records(n, trace[..y]);
  }

  // ---------- clocks ----------

  lemma {:induction false} ClockKnown(n: nat, trace: seq<Event>, x: nat)
    requires Check(n, trace).Sound? && x < |trace|
    ensures trace[x].id < |Check(n, trace).records| && trace[x].clock <= Check(n, trace).records[trace[x].id].clock
  {
    var last := |trace| - 1;
    Front(n, trace);
    if x < last { ClockKnown(n, trace[..last], x); }
  }

  /** The lines of one process never step back in time. */
  lemma ClocksRise(n: nat, trace: seq<Event>, x: nat, y: nat)
    requires Check(n, trace).Sound? && x < y < |trace| && trace[x].id == trace[y].id
    ensures trace[x].clock <= trace[y].clock
  {
    ReadAt(n, trace, y);
    ClockKnown(n, trace[..y], x);
  }

  // ---------- sections ----------

  predicate Exits(e: Event, id: nat) { e.Left? && e.id == id }

  lemma {:induction false} StillInside(n: nat, trace: seq<Event>, x: nat)
    requires Check(n, trace).Sound? && x < |trace| && trace[x].Entered? && trace[x].id >= 1
    requires forall z :: x < z < |trace| ==> !Exits(trace[z], trace[x].id)
    ensures Check(n, trace).owner == trace[x].id
  {
    var last := |trace| - 1;
    Front(n, trace);
    if x < last {
      StillInside(n, trace[..last], x);
      assert !Exits(trace[last], trace[x].id);
    }
  }

  /** Between any two entries, whoever makes them, the first of them has ended. */
  lemma SectionsApart(n: nat, trace: seq<Event>, x: nat, y: nat)
    requires Check(n, trace).Sound? && x < y < |trace| && trace[x].Entered? && trace[y].Entered? && trace[x].id >= 1
    ensures exists z :: x < z < y && Exits(trace[z], trace[x].id)
  {
    ReadAt(n, trace, y);
    if forall z :: x < z < y ==> !Exits(trace[z], trace[x].id) {
      forall z | x < z < |trace[..y]| ensures !Exits(trace[..y][z], trace[x].id) { assert trace[..y][z] == trace[z]; }
      StillInside(n, trace[..y], x);
    }
  }

  // ---------- iterations ----------

  /** Sections of a process that have ended. */
  function Ended(trace: seq<Event>, id: nat): nat {
    if trace == [] then 0
    else Ended(trace[..|trace| - 1], id) + if Exits(trace[|trace| - 1], id) then 1 else 0
  }

  lemma {:induction false} EndedKnown(n: nat, trace: seq<Event>, id: nat)
    requires Check(n, trace).Sound? && id <= n
    ensures |Check(n, trace).records| == n + 1 && Check(n, trace).records[id].completed == Ended(trace, id)
  {
    Records(n, trace);
    if trace != [] {
      Front(n, trace);
      Records(n, trace[..|trace| - 1]);
      EndedKnown(n, trace[..|trace| - 1], id);
    }
  }

  /** Every line names the iteration it belongs to: one more than have ended before it. */
  lemma IterationIs(n: nat, trace: seq<Event>, y: nat)
    requires Check(n, trace).Sound? && y < |trace|
    ensures trace[y].iteration == Ended(trace[..y], trace[y].id) + 1
  {
    ReadAt(n, trace, y);
    EndedKnown(n, trace[..y], trace[y].id);
  }

  // ---------- requests ----------

  predicate Asks(e: Event, id: nat, clock: int) { e.Requested? && e.id == id && e.clock == clock }

  lemma {:induction false} AskedKnown(n: nat, trace: seq<Event>, id: nat) returns (x: nat)
    requires Check(n, trace).Sound? && id <= n
    ensures |Check(n, trace).records| == n + 1
    ensures var r := Check(n, trace).records[id];
            r.asked ==>
              x < |trace| && Asks(trace[x], id, r.askedAt) && forall z :: x < z < |trace| ==> !Exits(trace[z], id)
  {
    Records(n, trace);
    x := 0;
    if trace != [] {
      var last := |trace| - 1;
      Front(n, trace);
      Records(n, trace[..last]);
      x := AskedKnown(n, trace[..last], id);
      if trace[last].Requested? && trace[last].id == id { x := last; }
    }
  }

  /** Every entry answers a request of the same process, with its stamp, made since the
      last section of that process ended. */
  lemma EntryAnswers(n: nat, trace: seq<Event>, y: nat) returns (x: nat)
    requires Check(n, trace).Sound? && y < |trace| && trace[y].Entered?
    ensures x < y && Asks(trace[x], trace[y].id, trace[y].ts)
    ensures forall z :: x < z < y ==> !Exits(trace[z], trace[y].id)
  {
    ReadAt(n, trace, y);
    x := AskedKnown(n, trace[..y], trace[y].id);
    forall z | x < z < y ensures !Exits(trace[z], trace[y].id) { assert trace[..y][z] == trace[z]; }
  }

  // ---------- runs ----------

  /** In the trace of every run the sections are apart, the lines of a process are in the
      order of its clock and number its rounds, and every entry has its request. */
  lemma TraceMeans(n: nat, states: seq<Global>, run: seq<Step>, t: nat, y: nat) returns (r: nat)
    requires Behaviour(n, states, run) && t <= |run| && y < |states[t].trace|
    ensures var trace := states[t].trace;
            && 1 <= trace[y].id <= n
            && trace[y].iteration == Ended(trace[..y], trace[y].id) + 1
            && (forall x :: 0 <= x < y && trace[x].id == trace[y].id ==> trace[x].clock <= trace[y].clock)
            && (trace[y].Entered? ==>
                  forall x :: 0 <= x < y && trace[x].Entered? ==> exists z :: x < z < y && Exits(trace[z], trace[x].id))
            && (trace[y].Entered? ==>
                  && r < y && Asks(trace[r], trace[y].id, trace[y].ts)
                  && forall z :: r < z < y ==> !Exits(trace[z], trace[y].id))
  {
    TraceIsSound(n, states, run, t);
    SelfAlways(n, states, run, t);
    var trace := states[t].trace;
    forall x | 0 <= x < |trace| ensures 1 <= trace[x].id <= n { assert trace[x] in trace; }
    IterationIs(n, trace, y);
    forall x | 0 <= x < y && trace[x].id == trace[y].id ensures trace[x].clock <= trace[y].clock {
      ClocksRise(n, trace, x, y);
    }
    r := 0;
    if trace[y].Entered? {
      forall x | 0 <= x < y && trace[x].Entered? ensures exists z :: x < z < y && Exits(trace[z], trace[x].id) {
        SectionsApart(n, trace, x, y);
      }
      r := EntryAnswers(n, trace, y);
    }
  }

  // ---------- bypass ----------

  lemma {:induction false} ManyEntries(trace: seq<Event>, i: nat, j: nat, a: nat, b: nat, c: nat)
    requires a < b < c < |trace|
    requires forall x :: x in {a, b, c} ==> trace[x].Entered? && trace[x].id == j
    requires forall r :: a < r < |trace| ==> !(trace[r].Requested? && trace[r].id == i)
    ensures EntriesSince(trace, i, j) >= 3
  {
    FewerEntries(trace[..c], i, j, a, b);
    CountKept(trace, i, j, c + 1);
    assert trace[..c + 1][..c] == trace[..c] && trace[..c + 1][c] == trace[c];
    assert c in {a, b, c};
  }

  lemma FewerEntries(trace: seq<Event>, i: nat, j: nat, a: nat, b: nat)
    requires a < b < |trace| && trace[a].Entered? && trace[b].Entered? && trace[a].id == trace[b].id == j
    requires forall r :: a < r < |trace| ==> !(trace[r].Requested? && trace[r].id == i)
    ensures EntriesSince(trace, i, j) >= 2
  {
    CountKept(trace, i, j, b + 1);
    CountKept(trace[..b], i, j, a + 1);
    assert trace[..b + 1][..b] == trace[..b] && trace[..b][..a + 1][..a] == trace[..a];
  }

  /** Without a new request the count does not fall. */
  lemma {:induction false} CountKept(trace: seq<Event>, i: nat, j: nat, k: nat)
    requires k <= |trace| && forall r :: k <= r < |trace| ==> !(trace[r].Requested? && trace[r].id == i)
    ensures EntriesSince(trace[..k], i, j) <= EntriesSince(trace, i, j)
  {
    if k < |trace| {
      assert trace[..|trace| - 1][..k] == trace[..k];
      CountKept(trace[..|trace| - 1], i, j, k);
    } else {
      assert trace[..k] == trace;
    }
  }

  /** No three entries of another child while a request waits: of any three, the first was
      made before the request. */
  lemma NoThirdEntry(
      n: nat, states: seq<Global>, run: seq<Step>, t: nat, i: nat, j: nat, a: nat, b: nat, c: nat)
    requires Behaviour(n, states, run) && t <= |run| && 1 <= i <= n && 1 <= j <= n && i != j
    requires a < b < c < |states[t].trace|
    requires forall x :: x in {a, b, c} ==> states[t].trace[x].Entered? && states[t].trace[x].id == j
    ensures Formed(states[t]) && states[t].n == n
    ensures states[t].procs[i].requesting && !states[t].procs[i].inside ==>
              exists r :: a < r < |states[t].trace| && states[t].trace[r].Requested? && states[t].trace[r].id == i
  {
    BoundedBypass(n, states, run, t, i);
    var trace := states[t].trace;
    if forall r :: a < r < |trace| ==> !(trace[r].Requested? && trace[r].id == i) { ManyEntries(trace, i, j, a, b, c); }
  }
}
