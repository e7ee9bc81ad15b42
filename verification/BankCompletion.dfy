/** The limits of the program and its scripts: exactly which scripts are carried through
    whatever the network does. */
module BankCompletion {
  import opened BankProcess
  import opened BankSystem
  import opened BankInvariant
  import opened BankTimes
  import opened BankLog
  import opened BankRange
  import opened BankProgress
  import opened BankTermination
  import opened BankSearch
  import opened BankChain

  /** Some run of the program, whoever is heard first, comes to a step that meets a limit. */
  ghost predicate EndsEarly(n: nat, script: seq<Order>, opening: seq<int>) {
    exists states, run, s :: Execution(n, script, opening, states, run) && LimitAt(states, run, s)
  }

  ghost predicate LimitAt(states: seq<Global>, run: seq<Step>, s: Step) {
    |states| == |run| + 1 && Formed(states[|run|]) && Enabled(states[|run|], s) && Fatal(states[|run|], s)
  }

  /** The same with the searches as the program makes them. */
  ghost predicate SearchEndsEarly(n: nat, script: seq<Order>, opening: seq<int>) {
    exists states, moves, s ::
      && Walk(n, script, opening, states, moves) && AllSpared(states, moves, |moves|)
      && LimitFound(states, moves, s)
  }

  ghost predicate LimitFound(states: seq<Search>, moves: seq<Move>, s: Step) {
    && |states| == |moves| + 1 && Placed(states[|moves|])
    && Possible(states[|moves|], Act(s)) && Fatal(states[|moves|].g, s)
  }

  /** Searching adds no way to end. */
  lemma SearchIsRun(n: nat, script: seq<Order>, opening: seq<int>)
    requires SearchEndsEarly(n, script, opening)
    ensures EndsEarly(n, script, opening)
  {
    var states, moves, s :|
      && Walk(n, script, opening, states, moves) && AllSpared(states, moves, |moves|)
      && LimitFound(states, moves, s);
    var globals, run := WalkIsRun(n, script, opening, states, moves, |moves|);
    assert LimitAt(globals, run, s);
  }

  /** What a walk has done up to some point is a walk. */
  lemma Cut(n: nat, script: seq<Order>, opening: seq<int>, states: seq<Search>, moves: seq<Move>, t: nat)
    requires Walk(n, script, opening, states, moves) && t <= |moves|
    ensures Walk(n, script, opening, states[..t + 1], moves[..t])
  {
    var states', moves' := states[..t + 1], moves[..t];
    forall i: nat | i < t ensures MoveAt(states', moves', i) { assert MoveAt(states, moves, i); }
  }

  /** The first move that meets a limit is met by the program. */
  lemma {:induction false} FirstLimit(
      n: nat, script: seq<Order>, opening: seq<int>, states: seq<Search>, moves: seq<Move>, s: Step)
    requires Walk(n, script, opening, states, moves) && LimitFound(states, moves, s)
    ensures SearchEndsEarly(n, script, opening)
    decreases |moves|
  {
    if t: nat :| t < |moves| && !Spared(states, moves, t) {
      assert MoveAt(states, moves, t);
      Cut(n, script, opening, states, moves, t);
      FirstLimit(n, script, opening, states[..t + 1], moves[..t], moves[t].s);
    } else {
      assert AllSpared(states, moves, |moves|);
    }
  }

  // ---------- a line that does not fit ----------

  /** Every walk can go on to the very end, limits left aside. */
  lemma {:induction false} ToEnd(b: Search, tk: Token) returns (d: Search)
    requires Live(b) && Kept(b.g, tk)
    ensures Live(d) && SameBank(b.g, d.g) && Stuck(d.g)
    decreases Left(b.g, tk)
  {
    d := b;
    if !Stuck(b.g) {
      var s :| Enabled(b.g, s);
      var b', s' := Goes(b, s);
      MovableOwes(b.g, tk, s');
      StepLeaves(b.g, tk, s');
      StepKept(b.g, tk, s');
      LiveNext(b', Act(s'));
      d := ToEnd(After(b', Act(s')), NextToken(b.g.procs[s'.k], s'.a, tk, b.g.script));
    }
  }

  lemma EndIsComplete(b: Search)
    requires Live(b) && Stuck(b.g)
    ensures |b.g.log| == 2 * |b.g.script|
  {
    var tk := LiveKept(b);
    StuckIsFinal(b.g, tk, 1, 0);
  }

  lemma SparedStays(
      n: nat, script: seq<Order>, opening: seq<int>, states: seq<Search>, moves: seq<Move>, x: nat)
    requires Walk(n, script, opening, states, moves) && AllSpared(states, moves, |moves|)
    requires x < 2 * |script| && !LineHolds(n, script, opening, x)
    ensures |states[|moves|].g.log| <= x
  {
    var globals, run := WalkIsRun(n, script, opening, states, moves, |moves|);
    LineNeverPassed(n, script, opening, globals, run, |run|, x);
  }

  /** A run whose log is complete has gone past every line, fitting or not. */
  lemma LineMeetsLimit(n: nat, script: seq<Order>, opening: seq<int>, x: nat)
    requires n >= 1 && ValidScript(n, script) && |opening| == n + 1
    requires x < 2 * |script| && !LineHolds(n, script, opening, x)
    ensures SearchEndsEarly(n, script, opening)
  {
    OutsetLive(n, script, opening);
    var d := ToEnd(Outset(n, script, opening), None);
    EndIsComplete(d);
    var states: seq<Search>, moves: seq<Move> :| Walk(n, script, opening, states, moves) && states[|moves|] == d;
    if AllSpared(states, moves, |moves|) {
      SparedStays(n, script, opening, states, moves, x);
    } else {
      var t: nat :| t < |moves| && !Spared(states, moves, t);
      assert MoveAt(states, moves, t);
      Cut(n, script, opening, states, moves, t);
      FirstLimit(n, script, opening, states[..t + 1], moves[..t], moves[t].s);
    }
  }

  /** The chain of stops makes account n report at the last moment. */
  lemma ChainMeetsLimit(n: nat, script: seq<Order>, opening: seq<int>)
    requires n >= 1 && ValidScript(n, script) && |opening| == n + 1 && LastMoment(n, |script|) > 254
    ensures SearchEndsEarly(n, script, opening)
  {
    var d := LastMomentReached(n, script, opening);
    var states: seq<Search>, moves: seq<Move> :| Walk(n, script, opening, states, moves) && states[|moves|] == d;
    assert LimitFound(states, moves, Step(n, Report));
    FirstLimit(n, script, opening, states, moves, Step(n, Report));
  }

  lemma NobodyEndsEarly(n: nat, script: seq<Order>, opening: seq<int>)
    requires n >= 1 && ValidScript(n, script) && |opening| == n + 1 && Representable(n, script, opening)
    ensures !EndsEarly(n, script, opening)
  {
    forall states, run, s | Execution(n, script, opening, states, run) ensures !LimitAt(states, run, s) {
      NoLimitMet(n, script, opening, states, run, |run|, s);
    }
  }

  /** The program carries a script through, whatever the network does, if and only if its
      last moment is at most 254 and its balances fit.  Whom an account hears first makes
      no difference to this: neither any order at all nor the order of its searches. */
  lemma ExactRange(n: nat, script: seq<Order>, opening: seq<int>)
    requires n >= 1 && ValidScript(n, script) && |opening| == n + 1
    ensures EndsEarly(n, script, opening) <==> !Representable(n, script, opening)
    ensures SearchEndsEarly(n, script, opening) <==> !Representable(n, script, opening)
  {
    if Representable(n, script, opening) {
      NobodyEndsEarly(n, script, opening);
    } else if LastMoment(n, |script|) > 254 {
      ChainMeetsLimit(n, script, opening);
    } else {
      var x: nat :| x < 2 * |script| && !LineHolds(n, script, opening, x);
      LineMeetsLimit(n, script, opening, x);
    }
    if SearchEndsEarly(n, script, opening) { SearchIsRun(n, script, opening); }
  }

  // ---------- scripts ----------

  /** A script whose last arrival would be beyond 254 fails in every order: STOP is never
      sent, and some run comes to the step that meets the limit. */
  lemma TooManyOrders(n: nat, script: seq<Order>, opening: seq<int>, states: seq<Global>, run: seq<Step>, t: nat)
    requires Execution(n, script, opening, states, run) && t <= |run|
    requires |script| >= 1 && n + 6 * |script| - 1 > 254
    ensures Formed(states[t]) && !HasStopped(states[t].procs[0]) && SearchEndsEarly(n, script, opening)
  {
    var x := 2 * |script| - 1;
    assert LineTime(n, x) == n + 6 * |script| - 1;
    LineNeverPassed(n, script, opening, states, run, t, x);
    LineMeetsLimit(n, script, opening, x);
  }

  /** Two accounts and 43 transfers: the last one would arrive at 259. */
  lemma FortyThreeOrders(script: seq<Order>, opening: seq<int>, states: seq<Global>, run: seq<Step>, t: nat)
    requires Execution(2, script, opening, states, run) && t <= |run| && |script| == 43
    ensures Formed(states[t]) && !HasStopped(states[t].procs[0]) && LineTime(2, 85) == 259
  {
    TooManyOrders(2, script, opening, states, run, t);
  }

  /** The scenario that comes with the program: one unit goes round all accounts. */
  function Ring(n: nat): (script: seq<Order>)
    ensures |script| == if n < 2 then 0 else n
    ensures forall k :: 0 <= k < |script| ==>
              script[k].src == k + 1 && script[k].dst == if k + 1 == n then 1 else k + 2
    ensures forall o :: o in script ==> ValidOrder(o, n) && o.amount == 1
  {
    if n < 2 then [] else seq(n, k requires 0 <= k < n => Order(k + 1, if k + 1 == n then 1 else k + 2, 1))
  }

  /** Where the unit is after `k` orders: it has left account 1, and it is with account
      k + 1, or back where it started. */
  lemma {:induction false} RingTravels(opening: int, n: nat, k: nat, i: nat)
    requires n >= 2 && k <= n && 1 <= i <= n
    ensures Standing(opening, Ring(n), 2 * k, i) ==
            opening - (if 1 <= k < n && i == 1 then 1 else 0) + (if 1 <= k < n && i == k + 1 then 1 else 0)
  {
    if k > 0 {
      RingTravels(opening, n, k - 1, i);
      var o := Ring(n)[k - 1];
      assert Standing(opening, Ring(n), 2 * k - 1, i)
          == Standing(opening, Ring(n), 2 * k - 2, i) + Share(Ring(n), 2 * k - 2, i);
      assert o.src == k && o.dst == if k == n then 1 else k + 1;
    }
  }

  lemma {:induction false} StandingNear(opening: int, script: seq<Order>, x: nat, i: nat)
    requires x <= 2 * |script| && forall o :: o in script ==> o.amount == 1
    ensures opening - x <= Standing(opening, script, x, i) <= opening + x
  {
    if x > 0 {
      assert script[(x - 1) / 2] in script;
      StandingNear(opening, script, x - 1, i);
    }
  }

  lemma RingMoment(n: nat)
    requires n >= 2
    ensures LastMoment(n, n) <= 254 <==> n <= 14
  {
    if n >= 15 {
      assert n * (n + 5) >= 15 * 20;
    } else {
      assert n * (n + 5) <= 14 * 19;
    }
  }

  /** The scenario is carried through for up to 14 accounts with the balances the program
      accepts; with 15, which it accepts as well, the last moment is 256. */
  lemma RingRange(n: nat, opening: seq<int>)
    requires n >= 1 && |opening| == n + 1 && forall i :: 1 <= i <= n ==> 1 <= opening[i] <= 99
    ensures EndsEarly(n, Ring(n), opening) <==> n > 14
    ensures SearchEndsEarly(n, Ring(n), opening) <==> n > 14
  {
    var script := Ring(n);
    ExactRange(n, script, opening);
    if n >= 2 { RingMoment(n); }
    if n <= 14 {
      forall x: nat | x < 2 * |script| ensures LineHolds(n, script, opening, x) {
        assert script[x / 2] in script;
        StandingNear(opening[Holder(script, x)], script, x + 1, Holder(script, x));
      }
    }
  }
}
