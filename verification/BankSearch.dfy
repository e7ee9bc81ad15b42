/** The bank with the cursors of its accounts: an account in its main loop asks one peer
    after the other, and hears the one its search has come to.  Searching aside, what it
    does is a run of the bank. */
module BankSearch {
  import opened BankProcess
  import opened BankSystem
  import opened BankInvariant
  import opened BankLog
  import opened BankRange
  import RoundRobin

  datatype Search = Search(g: Global, cursor: seq<nat>)

  /** Going past a peer that has nothing, or a step of the bank. */
  datatype Move = Look(k: nat) | Act(s: Step)

  function Outset(n: nat, script: seq<Order>, opening: seq<int>): Search
    requires |opening| == n + 1
  {
    Search(Initial(n, script, opening), seq(n + 1, _ => 0))
  }

  ghost predicate Placed(x: Search) {
    Formed(x.g) && |x.cursor| == x.g.n + 1 && forall k :: 0 <= k <= x.g.n ==> x.cursor[k] <= x.g.n
  }

  /** The account waits for a frame of any peer. */
  predicate Searching(p: Proc) { p.out.Quiet? && Serving(p) }

  /** The step ends a search. */
  ghost predicate Finds(g: Global, s: Step)
    requires Formed(g)
  {
    s.k <= g.n && s.a.Recv? && g.procs[s.k].pc.Running?
  }

  ghost predicate Possible(x: Search, m: Move)
    requires Placed(x)
  {
    match m
    case Look(k) =>
      k <= x.g.n && Searching(x.g.procs[k]) && (x.cursor[k] == k || x.g.chan[x.cursor[k]][k] == [])
    case Act(s) => Enabled(x.g, s) && (Finds(x.g, s) ==> s.a.from == x.cursor[s.k])
  }

  function MovedOn(cursor: seq<nat>, k: nat, count: nat): seq<nat>
    requires k < |cursor| && cursor[k] < count
  {
    cursor[k := RoundRobin.Next(cursor[k], count)]
  }

  ghost function After(x: Search, m: Move): (y: Search)
    requires Placed(x) && Possible(x, m)
    ensures Placed(y) && SameBank(x.g, y.g)
  {
    match m
    case Look(k) => x.(cursor := MovedOn(x.cursor, k, x.g.n + 1))
    case Act(s) =>
      Search(Apply(x.g, s), if Finds(x.g, s) then MovedOn(x.cursor, s.k, x.g.n + 1) else x.cursor)
  }

  ghost predicate SameBank(g: Global, h: Global) { h.n == g.n && h.script == g.script && h.opening == g.opening }

  ghost predicate MoveAt(states: seq<Search>, moves: seq<Move>, i: nat) {
    && i < |moves| && i + 1 < |states|
    && Placed(states[i]) && Possible(states[i], moves[i])
    && states[i + 1] == After(states[i], moves[i])
  }

  /** `moves` leads from the start through exactly the listed states. */
  ghost predicate Walk(n: nat, script: seq<Order>, opening: seq<int>, states: seq<Search>, moves: seq<Move>) {
    && n >= 1 && ValidScript(n, script) && |opening| == n + 1
    && |states| == |moves| + 1
    && states[0] == Outset(n, script, opening)
    && forall i: nat :: i < |moves| ==> MoveAt(states, moves, i)
  }

  /** The move meets no limit. */
  ghost predicate Spared(states: seq<Search>, moves: seq<Move>, i: nat) {
    MoveAt(states, moves, i) && (moves[i].Act? ==> !Fatal(states[i].g, moves[i].s))
  }

  // ---------- walks are runs ----------

  /** A run can be continued by any step that is enabled where it stands. */
  lemma Continued(n: nat, script: seq<Order>, opening: seq<int>, states: seq<Global>, run: seq<Step>, s: Step)
    requires Behaviour(n, script, opening, states, run) && Formed(states[|run|]) && Enabled(states[|run|], s)
    ensures Behaviour(n, script, opening, states + [Apply(states[|run|], s)], run + [s])
    ensures Execution(n, script, opening, states, run) && !Fatal(states[|run|], s) ==>
              Execution(n, script, opening, states + [Apply(states[|run|], s)], run + [s])
  {
    var states', run' := states + [Apply(states[|run|], s)], run + [s];
    forall i: nat | i < |run'| ensures StepAt(states', run', i) {
      if i < |run| { assert StepAt(states, run, i); }
    }
    if Execution(n, script, opening, states, run) && !Fatal(states[|run|], s) {
      forall i: nat | i < |run'| ensures Harmless(states', run', i) {
        if i < |run| { assert Harmless(states, run, i); }
      }
    }
  }

  ghost predicate AllSpared(states: seq<Search>, moves: seq<Move>, t: nat) {
    forall i: nat :: i < t ==> Spared(states, moves, i)
  }

  /** Searching changes nothing but the cursors: whatever is proved of the runs of the bank
      holds of the bank that searches. */
  lemma {:induction false} WalkIsRun(
      n: nat, script: seq<Order>, opening: seq<int>, states: seq<Search>, moves: seq<Move>, t: nat)
    returns (globals: seq<Global>, run: seq<Step>)
    requires Walk(n, script, opening, states, moves) && t <= |moves|
    ensures Behaviour(n, script, opening, globals, run) && globals[|run|] == states[t].g && Formed(states[t].g)
    ensures AllSpared(states, moves, t) ==> Execution(n, script, opening, globals, run)
  {
    if t == 0 {
      globals, run := [Initial(n, script, opening)], [];
      InitKept(n, script, opening);
    } else {
      globals, run := WalkIsRun(n, script, opening, states, moves, t - 1);
      assert MoveAt(states, moves, t - 1);
      if moves[t - 1].Act? {
        Continued(n, script, opening, globals, run, moves[t - 1].s);
        assert AllSpared(states, moves, t) ==> Spared(states, moves, t - 1);
        globals, run := globals + [Apply(globals[|run|], moves[t - 1].s)], run + [moves[t - 1].s];
      }
    }
  }

  // ---------- reachable states ----------

  ghost predicate Live(x: Search) {
    && Placed(x)
    && exists states, moves :: Walk(x.g.n, x.g.script, x.g.opening, states, moves) && states[|moves|] == x
  }

  lemma OutsetLive(n: nat, script: seq<Order>, opening: seq<int>)
    requires n >= 1 && ValidScript(n, script) && |opening| == n + 1
    ensures Live(Outset(n, script, opening)) && Kept(Outset(n, script, opening).g, None)
  {
    InitKept(n, script, opening);
    assert Walk(n, script, opening, [Outset(n, script, opening)], []);
  }

  lemma LiveNext(x: Search, m: Move)
    requires Live(x) && Possible(x, m)
    ensures Live(After(x, m))
  {
    var states, moves :| Walk(x.g.n, x.g.script, x.g.opening, states, moves) && states[|moves|] == x;
    var y, states', moves' := After(x, m), states + [After(x, m)], moves + [m];
    forall i: nat | i < |moves'| ensures MoveAt(states', moves', i) {
      if i < |moves| { assert MoveAt(states, moves, i); }
    }
    assert Walk(y.g.n, y.g.script, y.g.opening, states', moves') && states'[|moves'|] == y;
  }

  /** After STOP no transfer is in progress. */
  lemma LiveKept(x: Search) returns (tk: Token)
    requires Live(x)
    ensures Kept(x.g, tk) && (HasStopped(x.g.procs[0]) ==> tk.None?)
  {
    var states, moves :| Walk(x.g.n, x.g.script, x.g.opening, states, moves) && states[|moves|] == x;
    var globals, run := WalkIsRun(x.g.n, x.g.script, x.g.opening, states, moves, |moves|);
    tk := KeptAlways(x.g.n, x.g.script, x.g.opening, globals, run, |run|);
  }

  // ---------- searches ----------

  /** Behind the last peer comes the first. */
  function Wrapped(i: nat, n: nat): nat { if i == n + 1 then 0 else i }

  lemma PastOne(x: Search, k: nat) returns (y: Search)
    requires Live(x) && Possible(x, Look(k))
    ensures Live(y) && y.g == x.g && y.cursor == x.cursor[k := Wrapped(x.cursor[k] + 1, x.g.n)]
  {
    LiveNext(x, Look(k));
    y := After(x, Look(k));
  }

  /** While the peers from the cursor on have nothing, the search goes past them. */
  lemma {:induction false} Seek(x: Search, k: nat, goal: nat) returns (y: Search)
    requires Live(x) && k <= x.g.n && Searching(x.g.procs[k]) && x.cursor[k] <= goal <= x.g.n + 1
    requires forall i :: x.cursor[k] <= i < goal ==> i == k || x.g.chan[i][k] == []
    ensures Live(y) && y.g == x.g && y.cursor == x.cursor[k := Wrapped(goal, x.g.n)]
    decreases goal - x.cursor[k]
  {
    if x.cursor[k] == goal {
      y := x;
    } else {
      y := PastOne(x, k);
      if y.cursor[k] != 0 { y := Seek(y, k, goal); }
    }
  }

  /** The frame a search has come to is heard. */
  lemma HearsNext(x: Search, s: Step) returns (y: Search)
    requires Live(x) && Enabled(x.g, s) && Finds(x.g, s) && s.a.from == x.cursor[s.k]
    ensures Live(y) && y.g == Apply(x.g, s) && SameBank(x.g, y.g)
    ensures y.cursor == x.cursor[s.k := Wrapped(x.cursor[s.k] + 1, x.g.n)]
  {
    LiveNext(x, Act(s));
    y := After(x, Act(s));
  }

  /** Places from the cursor to `i`, all the way round. */
  function Places(cursor: nat, i: nat, n: nat): nat
    requires cursor <= n && i <= n
  {
    if cursor <= i then i - cursor else i + n + 1 - cursor
  }

  /** Where some peer has a frame, the search comes to one that has. */
  lemma {:induction false} Found(x: Search, k: nat, i: nat) returns (y: Search)
    requires Live(x) && k <= x.g.n && i <= x.g.n && i != k && Searching(x.g.procs[k]) && x.g.chan[i][k] != []
    ensures Live(y) && y.g == x.g && y.cursor[k] != k && y.g.chan[y.cursor[k]][k] != []
    decreases Places(x.cursor[k], i, x.g.n)
  {
    if x.cursor[k] != k && x.g.chan[x.cursor[k]][k] != [] {
      y := x;
    } else {
      y := PastOne(x, k);
      y := Found(y, k, i);
    }
  }

  /** What the bank can do, the bank that searches can do after some searching; only whom
      an account hears may differ. */
  lemma Goes(x: Search, s: Step) returns (y: Search, s': Step)
    requires Live(x) && Enabled(x.g, s)
    ensures Live(y) && y.g == x.g && Possible(y, Act(s'))
    ensures s' == s || (Finds(x.g, s) && Finds(x.g, s'))
  {
    if Finds(x.g, s) {
      y := Found(x, s.k, s.a.from);
      s' := Step(s.k, Recv(y.cursor[s.k], y.g.chan[y.cursor[s.k]][s.k][0], 0));
    } else {
      y, s' := x, s;
    }
  }

  // ---------- the searches are fair ----------

  /** The move is one of the search of account `k`: it goes past a peer or hears one. */
  ghost predicate Seeks(x: Search, m: Move, k: nat)
    requires Placed(x)
  {
    match m
    case Look(j) => j == k
    case Act(s) => s.k == k && Finds(x.g, s)
  }

  predicate HearsFrom(m: Move, k: nat, i: nat) { m.Act? && m.s.k == k && m.s.a.Recv? && m.s.a.from == i }

  /** A search never goes past a peer that has a frame. */
  lemma SeekApproaches(x: Search, m: Move, k: nat, i: nat)
    requires Placed(x) && Possible(x, m) && k <= x.g.n && i <= x.g.n && i != k
    requires x.g.chan[i][k] != [] && !HearsFrom(m, k, i)
    ensures var y := After(x, m);
            && y.g.chan[i][k] != []
            && Places(y.cursor[k], i, x.g.n) + (if Seeks(x, m, k) then 1 else 0) == Places(x.cursor[k], i, x.g.n)
  {
  }

  /** Moves of the search of `k` between `t` and `u`. */
  ghost function SeekCount(states: seq<Search>, moves: seq<Move>, k: nat, t: nat, u: nat): nat
    requires t <= u <= |moves| < |states| && forall v: nat :: v < |moves| ==> MoveAt(states, moves, v)
  {
    if t == u then 0
    else
      assert MoveAt(states, moves, u - 1);
      SeekCount(states, moves, k, t, u - 1) + if Seeks(states[u - 1], moves[u - 1], k) then 1 else 0
  }

  lemma {:induction false} PlacesLeft(
      n: nat, script: seq<Order>, opening: seq<int>, states: seq<Search>, moves: seq<Move>,
      t: nat, u: nat, k: nat, i: nat)
    requires Walk(n, script, opening, states, moves) && t <= u <= |moves| && k <= n && i <= n && i != k
    requires Placed(states[t]) && states[t].g.n == n && states[t].g.chan[i][k] != []
    requires forall v: nat :: t <= v < u ==> !HearsFrom(moves[v], k, i)
    ensures Placed(states[u]) && states[u].g.n == n && states[u].g.chan[i][k] != []
    ensures SeekCount(states, moves, k, t, u) + Places(states[u].cursor[k], i, n) == Places(states[t].cursor[k], i, n)
  {
    if t < u {
      PlacesLeft(n, script, opening, states, moves, t, u - 1, k, i);
      assert MoveAt(states, moves, u - 1);
      SeekApproaches(states[u - 1], moves[u - 1], k, i);
    }
  }

  /** In every walk a peer with a frame for account `k` is heard before the search of `k` has
      made more than n moves, looks included, whatever else happens. */
  lemma HeardInTurn(
      n: nat, script: seq<Order>, opening: seq<int>, states: seq<Search>, moves: seq<Move>,
      t: nat, u: nat, k: nat, i: nat)
    requires Walk(n, script, opening, states, moves) && t <= u <= |moves| && k <= n && i <= n && i != k
    requires Placed(states[t]) && states[t].g.n == n && states[t].g.chan[i][k] != []
    requires SeekCount(states, moves, k, t, u) > n
    ensures exists v: nat :: t <= v < u && HearsFrom(moves[v], k, i)
  {
    if forall v: nat :: t <= v < u ==> !HearsFrom(moves[v], k, i) {
      PlacesLeft(n, script, opening, states, moves, t, u, k, i);
    }
  }
}
