/** The bank is nothing but its processes joined by FIFO channels: seen from one process
    every run is a path of its automaton, the paths that class Node is proved to follow,
    and every interleaving of such paths that keeps the channels in order is a run. */
module BankComposition {
  import opened Seqs
  import opened BankProcess
  import opened BankSystem
  import opened BankPath
  import opened BankRange

  function ActionsOf(run: seq<Step>, k: nat): seq<Action> {
    if run == [] then []
    else
      var s := run[|run| - 1];
      ActionsOf(run[..|run| - 1], k) + (if s.k == k then [s.a] else [])
  }

  lemma ActionsNext(run: seq<Step>, s: Step, k: nat)
    ensures ActionsOf(run + [s], k) == if s.k == k then ActionsOf(run, k) + [s.a] else ActionsOf(run, k)
  {
    assert (run + [s])[..|run|] == run;
    assert ActionsOf(run, k) + [] == ActionsOf(run, k);
  }

  /** The frames posted to `x`. */
  function PostedTo(posts: Posts, x: nat): seq<Frame> {
    if posts == [] then []
    else
      var (y, m) := posts[|posts| - 1];
      PostedTo(posts[..|posts| - 1], x) + (if y == x then [m] else [])
  }

  lemma PostedNext(posts: Posts, y: nat, m: Frame, x: nat)
    ensures PostedTo(posts + [(y, m)], x) == if y == x then PostedTo(posts, x) + [m] else PostedTo(posts, x)
  {
    assert (posts + [(y, m)])[..|posts|] == posts;
    assert PostedTo(posts, x) + [] == PostedTo(posts, x);
  }

  ghost function Trail(g: Global, run: seq<Step>, k: nat): Local
    requires Formed(g) && k <= g.n
  {
    Follow(Init(k, g.n, g.opening[k]), ActionsOf(run, k), g.script)
  }

  ghost predicate Follows(g: Global, run: seq<Step>, k: nat)
    requires Formed(g) && k <= g.n
  {
    Trail(g, run, k).At? && Trail(g, run, k).p == g.procs[k]
  }

  /** Sent is received plus what the channel holds, in order. */
  ghost predicate Fifo(g: Global, run: seq<Step>, i: nat, j: nat)
    requires Formed(g) && i <= g.n && j <= g.n && i != j && Follows(g, run, i)
  {
    PostedTo(Trail(g, run, i).wire, j) == TakenFrom(ActionsOf(run, j), i) + g.chan[i][j]
  }

  lemma StepFollows(g: Global, s: Step, run: seq<Step>, k: nat)
    requires Formed(g) && Enabled(g, s) && !Fatal(g, s) && k <= g.n && Follows(g, run, k)
    ensures Follows(Apply(g, s), run + [s], k)
    ensures Trail(Apply(g, s), run + [s], k).wire ==
            if s.k == k then Trail(g, run, k).wire + Post(g.procs[k], s.a) else Trail(g, run, k).wire
  {
    ActionsNext(run, s, k);
    if s.k == k {
      FollowNext(Init(k, g.n, g.opening[k]), ActionsOf(run, k), g.script, s.a);
    }
  }

  lemma StepTakes(run: seq<Step>, s: Step, i: nat, j: nat)
    ensures TakenFrom(ActionsOf(run + [s], j), i) ==
            if s.k == j && s.a.Recv? && s.a.from == i then TakenFrom(ActionsOf(run, j), i) + [s.a.msg]
            else TakenFrom(ActionsOf(run, j), i)
  {
    ActionsNext(run, s, j);
    if s.k == j {
      TakenNext(ActionsOf(run, j), s.a, i);
      assert TakenFrom(ActionsOf(run, j), i) + [] == TakenFrom(ActionsOf(run, j), i);
    }
  }

  lemma StepPosts(g: Global, s: Step, wire: Posts, i: nat, j: nat)
    requires Formed(g) && Enabled(g, s) && i <= g.n && j <= g.n && i != j
    ensures PostedTo(if s.k == i then wire + Post(g.procs[i], s.a) else wire, j) ==
            if s.k == i && s.a.Write? && g.procs[i].out.next == j
            then PostedTo(wire, j) + [g.procs[i].out.frame] else PostedTo(wire, j)
  {
    if s.k == i && Post(g.procs[i], s.a) != [] {
      PostedNext(wire, g.procs[i].out.next, g.procs[i].out.frame, j);
    } else {
      assert wire + [] == wire;
    }
  }

  lemma ChannelStep(g: Global, s: Step, i: nat, j: nat)
    requires Formed(g) && Enabled(g, s) && i <= g.n && j <= g.n && i != j
    ensures var c, d := g.chan[i][j], Apply(g, s).chan[i][j];
            if s.k == i && s.a.Write? && g.procs[i].out.next == j then d == c + [g.procs[i].out.frame]
            else if s.k == j && s.a.Recv? && s.a.from == i then c == [s.a.msg] + d
            else d == c
  {
  }

  lemma StepFifo(g: Global, s: Step, run: seq<Step>, i: nat, j: nat)
    requires Formed(g) && Enabled(g, s) && !Fatal(g, s) && i <= g.n && j <= g.n && i != j
    requires Follows(g, run, i) && Fifo(g, run, i, j)
    ensures Follows(Apply(g, s), run + [s], i) && Fifo(Apply(g, s), run + [s], i, j)
  {
    var taken := TakenFrom(ActionsOf(run, j), i);
    StepFollows(g, s, run, i);
    StepTakes(run, s, i, j);
    StepPosts(g, s, Trail(g, run, i).wire, i, j);
    ChannelStep(g, s, i, j);
    if s.k == i && s.a.Write? && g.procs[i].out.next == j {
      Regroup(taken, g.chan[i][j], [g.procs[i].out.frame]);
    } else if s.k == j && s.a.Recv? && s.a.from == i {
      Regroup(taken, [s.a.msg], Apply(g, s).chan[i][j]);
    }
  }

  /** Every process is where its own actions lead it, and each channel carries written
      minus delivered, in order. */
  ghost predicate Composed(g: Global, run: seq<Step>)
    requires Formed(g)
  {
    && (forall k: nat :: k <= g.n ==> Follows(g, run, k))
    && forall i: nat, j: nat :: i <= g.n && j <= g.n && i != j ==> Fifo(g, run, i, j)
  }

  lemma StepComposed(g: Global, s: Step, run: seq<Step>)
    requires Formed(g) && Enabled(g, s) && !Fatal(g, s) && Composed(g, run)
    ensures Composed(Apply(g, s), run + [s])
  {
    var h := Apply(g, s);
    forall k: nat | k <= h.n ensures Follows(h, run + [s], k) { StepFollows(g, s, run, k); }
    forall i: nat, j: nat | i <= h.n && j <= h.n && i != j ensures Fifo(h, run + [s], i, j) {
      assert Fifo(g, run, i, j);
      StepFifo(g, s, run, i, j);
    }
  }

  /** In every state of every run of the program the processes are composed of their paths. */
  lemma {:induction false} Composition(
      n: nat, script: seq<Order>, opening: seq<int>, states: seq<Global>, run: seq<Step>, t: nat)
    requires Execution(n, script, opening, states, run) && t <= |run|
    ensures Formed(states[t]) && states[t].n == n && states[t].script == script && states[t].opening == opening
    ensures Composed(states[t], run[..t])
  {
    if t == 0 {
      assert run[..0] == [];
      StartFormed(n, script, opening);
    } else {
      Composition(n, script, opening, states, run, t - 1);
      assert run[..t] == run[..t - 1] + [run[t - 1]];
      assert Harmless(states, run, t - 1);
      StepComposed(states[t - 1], run[t - 1], run[..t - 1]);
    }
  }

  // ---------- the converse ----------

  ghost function Path(n: nat, script: seq<Order>, opening: seq<int>, run: seq<Step>, k: nat): Local
    requires |opening| == n + 1 && k <= n
  {
    Follow(Init(k, n, opening[k]), ActionsOf(run, k), script)
  }

  /** The reception at `t` takes the next frame that has been posted on its channel. */
  ghost predicate InOrder(n: nat, script: seq<Order>, opening: seq<int>, run: seq<Step>, t: nat)
    requires |opening| == n + 1 && t < |run|
  {
    var Step(j, a) := run[t];
    a.Recv? ==>
      && a.from <= n && j <= n && Path(n, script, opening, run[..t], a.from).At?
      && TakenFrom(ActionsOf(run[..t], j), a.from) + [a.msg]
         <= PostedTo(Path(n, script, opening, run[..t], a.from).wire, j)
  }

  /** An interleaving of paths, one per process, with every reception in the order of the
      channel and after the writing of the frame. */
  ghost predicate Interleaved(n: nat, script: seq<Order>, opening: seq<int>, run: seq<Step>) {
    && n >= 1 && ValidScript(n, script) && |opening| == n + 1
    && (forall t: nat :: t < |run| ==> run[t].k <= n)
    && (forall k: nat :: k <= n ==> Path(n, script, opening, run, k).At?)
    && forall t: nat :: t < |run| ==> InOrder(n, script, opening, run, t)
  }

  /** The beginning of an interleaving is one. */
  lemma Shorter(n: nat, script: seq<Order>, opening: seq<int>, run: seq<Step>)
    requires Interleaved(n, script, opening, run) && run != []
    ensures Interleaved(n, script, opening, run[..|run| - 1])
  {
    var before, s := run[..|run| - 1], run[|run| - 1];
    assert run == before + [s];
    forall k: nat | k <= n ensures Path(n, script, opening, before, k).At? {
      assert Path(n, script, opening, run, k).At?;
      ActionsNext(before, s, k);
      assert (ActionsOf(before, k) + [s.a])[..|ActionsOf(before, k)|] == ActionsOf(before, k);
    }
    forall t: nat | t < |before| ensures InOrder(n, script, opening, before, t) {
      assert InOrder(n, script, opening, run, t);
      assert run[..t] == before[..t];
    }
  }

  /** The last action of a path is one the process can take where it stands. */
  lemma LastIsLawful(g: Global, before: seq<Step>, s: Step)
    requires Formed(g) && s.k <= g.n && Follows(g, before, s.k)
    requires Path(g.n, g.script, g.opening, before + [s], s.k).At?
    ensures Lawful(g.procs[s.k], s.a, g.script)
  {
    ActionsNext(before, s, s.k);
    assert (ActionsOf(before, s.k) + [s.a])[..|ActionsOf(before, s.k)|] == ActionsOf(before, s.k);
  }

  lemma FrameIsThere(g: Global, run: seq<Step>, t: nat)
    requires Formed(g) && t < |run| && run[t].a.Recv? && InOrder(g.n, g.script, g.opening, run, t)
    requires Composed(g, run[..t]) && run[t].a.from != run[t].k
    ensures run[t].a.from <= g.n && run[t].k <= g.n
    ensures var c := g.chan[run[t].a.from][run[t].k]; c != [] && c[0] == run[t].a.msg
  {
    var i, j := run[t].a.from, run[t].k;
    assert Follows(g, run[..t], i) && Fifo(g, run[..t], i, j);
    HeadIs(TakenFrom(ActionsOf(run[..t], j), i), g.chan[i][j], run[t].a.msg);
  }

  /** The next step of an interleaving is enabled where its beginning has led. */
  lemma NextEnabled(g: Global, run: seq<Step>)
    requires Formed(g) && Interleaved(g.n, g.script, g.opening, run) && run != []
    requires Composed(g, run[..|run| - 1])
    ensures Enabled(g, run[|run| - 1]) && !Fatal(g, run[|run| - 1])
  {
    var t := |run| - 1;
    var s := run[t];
    assert run[..t] + [s] == run;
    assert s.k <= g.n && Path(g.n, g.script, g.opening, run, s.k).At? && InOrder(g.n, g.script, g.opening, run, t);
    LastIsLawful(g, run[..t], s);
    if s.a.Recv? { FrameIsThere(g, run, t); }
  }

  lemma HeadIs(taken: seq<Frame>, rest: seq<Frame>, m: Frame)
    requires taken + [m] <= taken + rest
    ensures rest != [] && rest[0] == m
  {
    assert (taken + [m])[|taken|] == (taken + rest)[|taken|];
  }

  /** Every such interleaving is a run of the program. */
  lemma {:induction false} Recomposition(n: nat, script: seq<Order>, opening: seq<int>, run: seq<Step>)
    returns (states: seq<Global>)
    requires Interleaved(n, script, opening, run)
    ensures Execution(n, script, opening, states, run)
    decreases |run|
  {
    if run == [] {
      states := [Initial(n, script, opening)];
    } else {
      var before, s := run[..|run| - 1], run[|run| - 1];
      Shorter(n, script, opening, run);
      var states0 := Recomposition(n, script, opening, before);
      Composition(n, script, opening, states0, before, |before|);
      assert before[..|before|] == before && run == before + [s];
      var g := states0[|before|];
      NextEnabled(g, run);
      states := states0 + [Apply(g, s)];
      Longer(n, script, opening, states0, before, s);
    }
  }

  lemma Longer(n: nat, script: seq<Order>, opening: seq<int>, states: seq<Global>, run: seq<Step>, s: Step)
    requires Execution(n, script, opening, states, run) && Formed(states[|run|])
    requires Enabled(states[|run|], s) && !Fatal(states[|run|], s)
    ensures Execution(n, script, opening, states + [Apply(states[|run|], s)], run + [s])
  {
    var states', run' := states + [Apply(states[|run|], s)], run + [s];
    forall t: nat | t < |run'| ensures StepAt(states', run', t) && Harmless(states', run', t) {
      if t < |run| { assert StepAt(states, run, t) && Harmless(states, run, t); }
    }
  }

  /** What a run of the program looks like from its processes, and nothing else. */
  lemma RunsAreInterleavings(n: nat, script: seq<Order>, opening: seq<int>, run: seq<Step>)
    ensures (exists states :: Execution(n, script, opening, states, run)) <==> Interleaved(n, script, opening, run)
  {
    if states :| Execution(n, script, opening, states, run) {
      Projection(n, script, opening, states, run);
    }
    if Interleaved(n, script, opening, run) {
      var states := Recomposition(n, script, opening, run);
    }
  }

  lemma Projection(n: nat, script: seq<Order>, opening: seq<int>, states: seq<Global>, run: seq<Step>)
    requires Execution(n, script, opening, states, run)
    ensures Interleaved(n, script, opening, run)
  {
    Composition(n, script, opening, states, run, |run|);
    assert run[..|run|] == run;
    forall t: nat | t < |run| ensures run[t].k <= n && InOrder(n, script, opening, run, t) {
      Composition(n, script, opening, states, run, t);
      assert StepAt(states, run, t);
      var g, s := states[t], run[t];
      if s.a.Recv? {
        assert Follows(g, run[..t], s.a.from) && Fifo(g, run[..t], s.a.from, s.k);
        var taken := TakenFrom(ActionsOf(run[..t], s.k), s.a.from);
        assert taken + [s.a.msg] <= taken + g.chan[s.a.from][s.k];
      }
    }
    forall k: nat | k <= n ensures Path(n, script, opening, run, k).At? {
      assert Follows(states[|run|], run, k);
    }
  }

  lemma StartFormed(n: nat, script: seq<Order>, opening: seq<int>)
    requires n >= 1 && ValidScript(n, script) && |opening| == n + 1
    ensures Formed(Initial(n, script, opening))
  {
  }
}
