/** The bank as a whole: the parent working off a script of transfers, the accounts,
    and one FIFO channel per ordered pair. */
module BankSystem {
  import opened BankProcess

  /** A transfer line of the event log: money leaving its source, or arriving. */
  datatype Line = Gone(order: Order, time: int) | Arrived(order: Order, sent: int, time: int)

  datatype Global = Global(
    n: nat, script: seq<Order>, opening: seq<int>, procs: seq<Proc>, chan: seq<seq<seq<Frame>>>, log: seq<Line>)

  datatype Step = Step(k: nat, a: Action)

  predicate ValidScript(n: nat, script: seq<Order>) {
    forall o :: o in script ==> ValidOrder(o, n)
  }

  function Initial(n: nat, script: seq<Order>, opening: seq<int>): Global
    requires |opening| == n + 1
  {
    Global(n, script, opening,
           seq(n + 1, i requires 0 <= i <= n => Init(i, n, opening[i])),
           seq(n + 1, _ => seq(n + 1, _ => [])), [])
  }

  ghost predicate Formed(g: Global) {
    && g.n >= 1 && |g.procs| == |g.chan| == |g.opening| == g.n + 1 && ValidScript(g.n, g.script)
    && (forall i :: 0 <= i <= g.n ==>
          Shaped(g.procs[i]) && g.procs[i].id == i && g.procs[i].n == g.n && g.procs[i].clock >= 0)
    && (forall i :: 0 <= i <= g.n ==> |g.chan[i]| == g.n + 1 && g.chan[i][i] == [])
  }

  ghost predicate Enabled(g: Global, s: Step)
    requires Formed(g)
  {
    && s.k <= g.n
    && Allowed(g.procs[s.k], s.a, g.script)
    && (s.a.Recv? ==> var c := g.chan[s.a.from][s.k]; c != [] && c[0] == s.a.msg)
  }

  function Push(chan: seq<seq<seq<Frame>>>, i: nat, j: nat, m: Frame): seq<seq<seq<Frame>>>
    requires i < |chan| && j < |chan[i]|
  {
    chan[i := chan[i][j := chan[i][j] + [m]]]
  }

  function Pop(chan: seq<seq<seq<Frame>>>, i: nat, j: nat): seq<seq<seq<Frame>>>
    requires i < |chan| && j < |chan[i]| && chan[i][j] != []
  {
    chan[i := chan[i][j := chan[i][j][1..]]]
  }

  /** The log line of a received transfer. */
  function NewLines(p: Proc, a: Action): seq<Line>
    requires Shaped(p) && (a.Recv? ==> a.from <= p.n)
  {
    if a.Recv? && p.pc.Running? && a.msg.kind.TRANSFER? && a.msg.payload.Transfer? then
      var q, o := Moved(p, a.msg), a.msg.payload.order;
      if Rejected(q, a.from, a.msg) then []
      else if SourceSide(q, a.from, o) then [Gone(o, q.clock + 1)]
      else [Arrived(o, a.msg.ts, q.clock)]
    else []
  }

  ghost function Apply(g: Global, s: Step): (h: Global)
    requires Formed(g) && Enabled(g, s)
    ensures Formed(h) && h.n == g.n && h.script == g.script && h.opening == g.opening
  {
    var p := g.procs[s.k];
    Global(
      g.n, g.script, g.opening,
      g.procs[s.k := Do(p, s.a, g.script)],
      match s.a
      case Write => if p.out.next == s.k then g.chan else Push(g.chan, s.k, p.out.next, p.out.frame)
      case Recv(from, _, _) => Pop(g.chan, from, s.k)
      case _ => g.chan,
      g.log + NewLines(p, s.a))
  }

  /** The step `i` leads from one listed state to the next. */
  ghost predicate StepAt(states: seq<Global>, run: seq<Step>, i: nat) {
    && i < |run| && i + 1 < |states|
    && Formed(states[i]) && Enabled(states[i], run[i])
    && states[i + 1] == Apply(states[i], run[i])
  }

  /** `run` leads from the start through exactly the listed states. */
  ghost predicate Behaviour(n: nat, script: seq<Order>, opening: seq<int>, states: seq<Global>, run: seq<Step>) {
    && n >= 1 && ValidScript(n, script) && |opening| == n + 1
    && |states| == |run| + 1
    && states[0] == Initial(n, script, opening)
    && forall i: nat :: i < |run| ==> StepAt(states, run, i)
  }
}
