/** The system is nothing but its processes joined by FIFO channels: seen from one
    process, every run is a path of its automaton, a channel holds exactly the frames
    that one side has written and the other has not yet received, and every interleaving
    of such paths that keeps the channels in order is a run. */
module MutexComposition {
  import opened Seqs
  import opened Wire
  import opened MutexProcess
  import opened MutexSystem
  import opened MutexPath

  function ActionsOf(run: seq<Step>, k: nat): seq<Action> {
    if run == [] then []
    else
      var s := run[|run| - 1];
      ActionsOf(run[..|run| - 1], k) + (if s.k == k then [s.a] else [])
  }

  lemma ActionsNext(run: seq<Step>, s: Step, k: nat)
    ensures ActionsOf(run + [s], k) == ActionsOf(run, k) + (if s.k == k then [s.a] else [])
  {
    assert (run + [s])[..|run|] == run;
  }

  /** The frames tagged with `x`. */
  function Pick(frames: Frames, x: nat): seq<Msg> {
    if frames == [] then []
    else
      var (y, m) := frames[|frames| - 1];
      Pick(frames[..|frames| - 1], x) + (if y == x then [m] else [])
  }

  lemma PickNext(frames: Frames, y: nat, m: Msg, x: nat)
    ensures Pick(frames + [(y, m)], x) == Pick(frames, x) + (if y == x then [m] else [])
  {
    assert (frames + [(y, m)])[..|frames|] == frames;
  }

  ghost predicate Follows(g: Global, run: seq<Step>, k: nat)
    requires Formed(g) && k <= g.n
  {
    var l := Follow(Init(k, g.n), ActionsOf(run, k));
    l.At? && l.p == g.procs[k]
  }

  lemma OwnStepFollows(g: Global, s: Step, path: seq<Action>, wire: Frames)
    requires Formed(g) && Enabled(g, s) && Follow(Init(s.k, g.n), path) == At(g.procs[s.k], wire)
    ensures Follow(Init(s.k, g.n), path + [s.a]) ==
            At(Apply(g, s).procs[s.k],
               wire + (if s.a.Write? && g.procs[s.k].out.next != s.k
                       then [(g.procs[s.k].out.next, g.procs[s.k].out.frame)] else []))
  {
    FollowNext(Init(s.k, g.n), path, s.a);
  }

  ghost function Written(g: Global, run: seq<Step>, i: nat): Frames
    requires Formed(g) && i <= g.n && Follows(g, run, i)
  {
    Follow(Init(i, g.n), ActionsOf(run, i)).wire
  }

  ghost predicate Fifo(g: Global, run: seq<Step>, i: nat, j: nat)
    requires Formed(g) && i <= g.n && j <= g.n && i != j && Follows(g, run, i)
  {
    Pick(Written(g, run, i), j) == Pick(Deliveries(ActionsOf(run, j)), i) + g.chan[i][j]
  }

  /** What step `s` makes process `i` write. */
  ghost function Fresh(g: Global, s: Step, i: nat): Frames
    requires Formed(g) && Enabled(g, s) && i <= g.n
  {
    if s.k == i && s.a.Write? && g.procs[i].out.next != i
    then [(g.procs[i].out.next, g.procs[i].out.frame)] else []
  }

  lemma WrittenNext(g: Global, s: Step, run: seq<Step>, i: nat)
    requires Formed(g) && Enabled(g, s) && i <= g.n && Follows(g, run, i)
    ensures Follows(Apply(g, s), run + [s], i)
    ensures Written(Apply(g, s), run + [s], i) == Written(g, run, i) + Fresh(g, s, i)
  {
    ActionsNext(run, s, i);
    var path, wire := ActionsOf(run, i), Written(g, run, i);
    if s.k == i {
      OwnStepFollows(g, s, path, wire);
    } else {
      assert path + [] == path && wire + [] == wire;
    }
  }

  lemma DeliveredNext(run: seq<Step>, s: Step, j: nat)
    ensures Deliveries(ActionsOf(run + [s], j)) ==
            Deliveries(ActionsOf(run, j)) + Taken(s, j)
  {
    ActionsNext(run, s, j);
    assert Deliveries(ActionsOf(run, j)) + [] == Deliveries(ActionsOf(run, j));
    if s.k == j {
      DeliveriesNext(ActionsOf(run, j), s.a);
    } else {
      assert ActionsOf(run, j) + [] == ActionsOf(run, j);
    }
  }

  /** What step `s` delivers to process `j`. */
  function Taken(s: Step, j: nat): Frames {
    if s.k == j && s.a.Recv? then [(s.a.from, s.a.msg)] else []
  }

  lemma ChannelMoves(g: Global, s: Step, i: nat, j: nat)
    requires Formed(g) && Enabled(g, s) && i <= g.n && j <= g.n && i != j
    ensures Pick(Taken(s, j), i) + Apply(g, s).chan[i][j] == g.chan[i][j] + Pick(Fresh(g, s, i), j)
  {
    var p, c, d := g.procs[i], g.chan[i][j], Apply(g, s).chan[i][j];
    if s.k == i && s.a.Write? && p.out.next == j {
      assert d == c + [p.out.frame];
      PickNext([], j, p.out.frame, j);
    } else if s.k == j && s.a.Recv? && s.a.from == i {
      assert c == [s.a.msg] + d;
      PickNext([], i, s.a.msg, i);
    } else {
      assert d == c;
    }
  }

  lemma {:induction false} PickAppend(a: Frames, b: Frames, x: nat)
    ensures Pick(a + b, x) == Pick(a, x) + Pick(b, x)
  {
    if b == [] {
      assert a + b == a;
    } else {
      var c, e := b[..|b| - 1], b[|b| - 1];
      assert a + b == (a + c) + [e];
      PickNext(a + c, e.0, e.1, x);
      PickAppend(a, c, x);
    }
  }

  lemma ChannelBalance(g: Global, s: Step, w: Frames, d: Frames, i: nat, j: nat)
    requires Formed(g) && Enabled(g, s) && i <= g.n && j <= g.n && i != j
    requires Pick(w, j) == Pick(d, i) + g.chan[i][j]
    ensures Pick(w + Fresh(g, s, i), j) == Pick(d + Taken(s, j), i) + Apply(g, s).chan[i][j]
  {
    PickAppend(w, Fresh(g, s, i), j);
    PickAppend(d, Taken(s, j), i);
    ChannelMoves(g, s, i, j);
    Regroup(Pick(d, i), g.chan[i][j], Pick(Fresh(g, s, i), j));
    Regroup(Pick(d, i), Pick(Taken(s, j), i), Apply(g, s).chan[i][j]);
  }

  lemma StepFifo(g: Global, s: Step, run: seq<Step>, i: nat, j: nat)
    requires Formed(g) && Enabled(g, s) && i <= g.n && j <= g.n && i != j && Follows(g, run, i) && Fifo(g, run, i, j)
    ensures Follows(Apply(g, s), run + [s], i) && Fifo(Apply(g, s), run + [s], i, j)
  {
    WrittenNext(g, s, run, i);
    DeliveredNext(run, s, j);
    ChannelBalance(g, s, Written(g, run, i), Deliveries(ActionsOf(run, j)), i, j);
  }

  /** Every process is where its own actions lead it, and each channel carries written
      minus delivered, in order. */
  ghost predicate Composed(g: Global, run: seq<Step>)
    requires Formed(g)
  {
    && (forall k: nat :: k <= g.n ==> Follows(g, run, k))
    && forall i: nat, j: nat :: i <= g.n && j <= g.n && i != j ==> Fifo(g, run, i, j)
  }

  lemma StepComposed(g: Global, s: Step, run: seq<Step>)
    requires Formed(g) && Enabled(g, s) && Composed(g, run)
    ensures Composed(Apply(g, s), run + [s])
  {
    var h := Apply(g, s);
    forall k: nat | k <= h.n ensures Follows(h, run + [s], k) { WrittenNext(g, s, run, k); }
    forall i: nat, j: nat | i <= h.n && j <= h.n && i != j ensures Fifo(h, run + [s], i, j) {
      assert Fifo(g, run, i, j);
      StepFifo(g, s, run, i, j);
    }
  }

  /** In every state of every run the processes are composed of their paths. */
  lemma {:induction false} Composition(n: nat, states: seq<Global>, run: seq<Step>, t: nat)
    requires Behaviour(n, states, run) && t <= |run|
    ensures Formed(states[t]) && states[t].n == n && Composed(states[t], run[..t])
  {
    if t == 0 {
      assert run[..0] == [];
    } else {
      Composition(n, states, run, t - 1);
      assert run[..t] == run[..t - 1] + [run[t - 1]];
      assert StepAt(states, run, t - 1);
      StepComposed(states[t - 1], run[t - 1], run[..t - 1]);
    }
  }

  // ---------- the converse ----------

  ghost function Path(n: nat, run: seq<Step>, k: nat): Local { Follow(Init(k, n), ActionsOf(run, k)) }

  /** The reception at `t` takes the next frame that has been written to its channel. */
  ghost predicate InOrder(n: nat, run: seq<Step>, t: nat)
    requires t < |run|
  {
    var Step(j, a) := run[t];
    a.Recv? ==>
      && a.from <= n && j <= n && Path(n, run[..t], a.from).At?
      && Pick(Deliveries(ActionsOf(run[..t], j)), a.from) + [a.msg] <= Pick(Path(n, run[..t], a.from).wire, j)
  }

  /** An interleaving of paths, one per process, with every reception in the order of the
      channel and after the writing of the frame. */
  ghost predicate Interleaved(n: nat, run: seq<Step>) {
    && n >= 1
    && (forall t: nat :: t < |run| ==> run[t].k <= n)
    && (forall k: nat :: k <= n ==> Path(n, run, k).At?)
    && forall t: nat :: t < |run| ==> InOrder(n, run, t)
  }

  /** The path of the acting process, seen from one step before. */
  lemma LastAction(before: seq<Step>, s: Step, k: nat)
    ensures s.k == k ==> ActionsOf(before + [s], k)[..|ActionsOf(before, k)|] == ActionsOf(before, k)
    ensures ActionsOf(before + [s], k) == if s.k == k then ActionsOf(before, k) + [s.a] else ActionsOf(before, k)
  {
    ActionsNext(before, s, k);
    assert ActionsOf(before, k) + [] == ActionsOf(before, k);
  }

  /** The beginning of an interleaving is one. */
  lemma Shorter(n: nat, run: seq<Step>)
    requires Interleaved(n, run) && run != []
    ensures Interleaved(n, run[..|run| - 1])
  {
    var before, s := run[..|run| - 1], run[|run| - 1];
    assert run == before + [s];
    forall k: nat | k <= n ensures Path(n, before, k).At? {
      assert Path(n, run, k).At?;
      LastAction(before, s, k);
    }
    forall t: nat | t < |before| ensures InOrder(n, before, t) {
      assert InOrder(n, run, t);
      assert run[..t] == before[..t];
    }
  }

  lemma LastIsAllowed(g: Global, before: seq<Step>, s: Step)
    requires Formed(g) && s.k <= g.n && Follows(g, before, s.k) && Path(g.n, before + [s], s.k).At?
    ensures Allowed(g.procs[s.k], s.a)
  {
    LastAction(before, s, s.k);
  }

  lemma FrameIsThere(g: Global, run: seq<Step>, t: nat)
    requires Formed(g) && t < |run| && run[t].a.Recv? && InOrder(g.n, run, t)
    requires Composed(g, run[..t]) && run[t].a.from != run[t].k
    ensures run[t].a.from <= g.n && run[t].k <= g.n
    ensures var c := g.chan[run[t].a.from][run[t].k]; c != [] && c[0] == run[t].a.msg
  {
    var i, j := run[t].a.from, run[t].k;
    assert Follows(g, run[..t], i) && Fifo(g, run[..t], i, j);
    HeadIs(Pick(Deliveries(ActionsOf(run[..t], j)), i), g.chan[i][j], run[t].a.msg);
  }

  lemma HeadIs(taken: seq<Msg>, rest: seq<Msg>, m: Msg)
    requires taken + [m] <= taken + rest
    ensures rest != [] && rest[0] == m
  {
    assert (taken + [m])[|taken|] == (taken + rest)[|taken|];
  }

  /** The next step of an interleaving is enabled where its beginning has led. */
  lemma NextEnabled(g: Global, run: seq<Step>)
    requires Formed(g) && Interleaved(g.n, run) && run != [] && Composed(g, run[..|run| - 1])
    ensures Enabled(g, run[|run| - 1])
  {
    var t := |run| - 1;
    var s := run[t];
    assert run[..t] + [s] == run;
    assert s.k <= g.n && Path(g.n, run, s.k).At? && InOrder(g.n, run, t);
    LastIsAllowed(g, run[..t], s);
    if s.a.Recv? { FrameIsThere(g, run, t); }
  }

  lemma Longer(n: nat, states: seq<Global>, run: seq<Step>, s: Step)
    requires Behaviour(n, states, run) && Formed(states[|run|]) && Enabled(states[|run|], s)
    ensures Behaviour(n, states + [Apply(states[|run|], s)], run + [s])
  {
    var states', run' := states + [Apply(states[|run|], s)], run + [s];
    forall t: nat | t < |run'| ensures StepAt(states', run', t) {
      if t < |run| { assert StepAt(states, run, t); }
    }
  }

  /** Every such interleaving is a run. */
  lemma {:induction false} Recomposition(n: nat, run: seq<Step>) returns (states: seq<Global>)
    requires Interleaved(n, run)
    ensures Behaviour(n, states, run)
    decreases |run|
  {
    if run == [] {
      states := [Initial(n)];
    } else {
      var before, s := run[..|run| - 1], run[|run| - 1];
      Shorter(n, run);
      var states0 := Recomposition(n, before);
      Composition(n, states0, before, |before|);
      assert before[..|before|] == before && run == before + [s];
      NextEnabled(states0[|before|], run);
      states := states0 + [Apply(states0[|before|], s)];
      Longer(n, states0, before, s);
    }
  }

  lemma Projection(n: nat, states: seq<Global>, run: seq<Step>)
    requires Behaviour(n, states, run)
    ensures Interleaved(n, run)
  {
    Composition(n, states, run, |run|);
    assert run[..|run|] == run;
    forall t: nat | t < |run| ensures run[t].k <= n && InOrder(n, run, t) {
      Composition(n, states, run, t);
      assert StepAt(states, run, t);
      var g, s := states[t], run[t];
      if s.a.Recv? {
        assert Follows(g, run[..t], s.a.from) && Fifo(g, run[..t], s.a.from, s.k);
        var taken := Pick(Deliveries(ActionsOf(run[..t], s.k)), s.a.from);
        assert taken + [s.a.msg] <= taken + g.chan[s.a.from][s.k];
      }
    }
    forall k: nat | k <= n ensures Path(n, run, k).At? {
      assert Follows(states[|run|], run, k);
    }
  }

  /** What a run looks like from its processes, and nothing else. */
  lemma RunsAreInterleavings(n: nat, run: seq<Step>)
    ensures (exists states :: Behaviour(n, states, run)) <==> Interleaved(n, run)
  {
    if states :| Behaviour(n, states, run) {
      Projection(n, states, run);
    }
    if Interleaved(n, run) {
      var states := Recomposition(n, run);
    }
  }

  // ---------- the trace ----------

  /** The lines of process `k`. */
  function LinesOf(trace: seq<Event>, k: nat): seq<Event> {
    if trace == [] then []
    else LinesOf(trace[..|trace| - 1], k) + (if trace[|trace| - 1].id == k then [trace[|trace| - 1]] else [])
  }

  lemma LinesAppend(trace: seq<Event>, more: seq<Event>, k: nat)
    requires |more| <= 1
    ensures LinesOf(trace + more, k) == LinesOf(trace, k) + (if more != [] && more[0].id == k then more else [])
  {
    if more == [] { assert trace + more == trace; } else { assert (trace + more)[..|trace|] == trace; }
  }

  lemma LinesStep(n: nat, states: seq<Global>, run: seq<Step>, t: nat, k: nat)
    requires Behaviour(n, states, run) && t < |run| && k <= n
    requires LinesOf(states[t].trace, k) == Lines(Init(k, n), ActionsOf(run[..t], k))
    ensures LinesOf(states[t + 1].trace, k) == Lines(Init(k, n), ActionsOf(run[..t + 1], k))
  {
    Composition(n, states, run, t);
    assert StepAt(states, run, t);
    var g, s := states[t], run[t];
    assert run[..t + 1] == run[..t] + [s];
    ActionsNext(run[..t], s, k);
    LinesAppend(g.trace, NewEvents(g.procs[s.k], s.a), k);
    if s.k == k {
      assert Follows(g, run[..t], k);
      LinesNext(Init(k, n), ActionsOf(run[..t], k), s.a);
    } else {
      assert ActionsOf(run[..t], k) + [] == ActionsOf(run[..t], k);
      assert LinesOf(g.trace, k) + [] == LinesOf(g.trace, k);
    }
  }

  /** The trace of a run is what its processes have written, line by line. */
  lemma {:induction false} TraceIsComposed(n: nat, states: seq<Global>, run: seq<Step>, t: nat, k: nat)
    requires Behaviour(n, states, run) && t <= |run| && k <= n
    ensures LinesOf(states[t].trace, k) == Lines(Init(k, n), ActionsOf(run[..t], k))
  {
    if t > 0 {
      TraceIsComposed(n, states, run, t - 1, k);
      LinesStep(n, states, run, t - 1, k);
    }
  }
}
