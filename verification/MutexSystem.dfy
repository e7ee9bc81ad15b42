/** All processes together: one automaton per process and one FIFO channel per
    ordered pair.  A run is any interleaving of single process actions. */
module MutexSystem {
  import opened Wire
  import opened MutexProcess

  datatype Global = Global(n: nat, procs: seq<Proc>, chan: seq<seq<seq<Msg>>>, trace: seq<Event>)

  datatype Step = Step(k: nat, a: Action)

  function Initial(n: nat): Global {
    Global(n, seq(n + 1, i requires 0 <= i => Init(i, n)), seq(n + 1, _ => seq(n + 1, _ => [])), [])
  }

  ghost predicate Formed(g: Global) {
    && g.n >= 1 && |g.procs| == |g.chan| == g.n + 1
    && (forall i :: 0 <= i <= g.n ==> Shaped(g.procs[i]) && g.procs[i].id == i && g.procs[i].n == g.n)
    && (forall i :: 0 <= i <= g.n ==> |g.chan[i]| == g.n + 1 && g.chan[i][i] == [])
  }

  ghost predicate Enabled(g: Global, s: Step)
    requires Formed(g)
  {
    && s.k <= g.n
    && Allowed(g.procs[s.k], s.a)
    && (s.a.Recv? ==> var c := g.chan[s.a.from][s.k]; c != [] && c[0] == s.a.msg)
  }

  function Push(chan: seq<seq<seq<Msg>>>, i: nat, j: nat, m: Msg): seq<seq<seq<Msg>>>
    requires i < |chan| && j < |chan[i]|
  {
    chan[i := chan[i][j := chan[i][j] + [m]]]
  }

  function Pop(chan: seq<seq<seq<Msg>>>, i: nat, j: nat): seq<seq<seq<Msg>>>
    requires i < |chan| && j < |chan[i]| && chan[i][j] != []
  {
    chan[i := chan[i][j := chan[i][j][1..]]]
  }

  ghost function Apply(g: Global, s: Step): (h: Global)
    requires Formed(g) && Enabled(g, s)
    ensures Formed(h) && h.n == g.n
  {
    var p := g.procs[s.k];
    Global(
      g.n,
      g.procs[s.k := Do(p, s.a)],
      match s.a
      case Write => if p.out.next == s.k then g.chan else Push(g.chan, s.k, p.out.next, p.out.frame)
      case Recv(from, _) => Pop(g.chan, from, s.k)
      case _ => g.chan,
      g.trace + NewEvents(p, s.a))
  }

  /** The step `i` leads from one listed state to the next. */
  ghost predicate StepAt(states: seq<Global>, run: seq<Step>, i: nat) {
    && i < |run| && i + 1 < |states|
    && Formed(states[i]) && Enabled(states[i], run[i])
    && states[i + 1] == Apply(states[i], run[i])
  }

  /** `run` leads from the start through exactly the listed states. */
  ghost predicate Behaviour(n: nat, states: seq<Global>, run: seq<Step>) {
    && n >= 1
    && |states| == |run| + 1
    && states[0] == Initial(n)
    && forall i: nat :: i < |run| ==> StepAt(states, run, i)
  }
}
