/** What the trace of a run looks like: an independent checker accepts it, and grants
    are handed out in request order. */
module MutexTrace {
  import opened Wire
  import opened MutexProcess
  import opened MutexSystem
  import opened MutexInvariant
  import opened MutexSafety

  // ---------- the checker ----------

  /** What the checker remembers of one process. */
  datatype Record = Record(asked: bool, askedAt: int, completed: nat, clock: int, wait: int, longest: int)

  /** Either the trace is broken, or someone (0: no one) owns the section. */
  datatype Verdict = Broken | Sound(owner: nat, records: seq<Record>)

  const BLANK := Record(false, 0, 0, 0, 0, 0)

  function Read(v: Verdict, e: Event): Verdict {
    if v.Broken? || e.id >= |v.records| then Broken
    else
      var r := v.records[e.id];
      if e.clock < r.clock || e.iteration != r.completed + 1 then Broken
      else match e
        case Requested(id, clock, _) =>
          if r.asked then Broken
          else v.(records := v.records[id := r.(asked := true, askedAt := clock, clock := clock)])
        case Entered(id, clock, _, ts) =>
          if v.owner != 0 || !r.asked || ts != r.askedAt then Broken
          else
            var waited := clock - r.askedAt;
            Sound(id, v.records[id := r.(clock := clock, wait := r.wait + waited,
                                         longest := if waited > r.longest then waited else r.longest)])
        case Left(id, clock, _) =>
          if v.owner != id || !r.asked then Broken
          else Sound(0, v.records[id := r.(asked := false, completed := r.completed + 1, clock := clock)])
  }

  function Check(n: nat, trace: seq<Event>): Verdict {
    if trace == [] then Sound(0, seq(n + 1, _ => BLANK))
    else Read(Check(n, trace[..|trace| - 1]), trace[|trace| - 1])
  }

  lemma CheckNext(n: nat, trace: seq<Event>, e: Event)
    ensures Check(n, trace + [e]) == Read(Check(n, trace), e)
  {
    assert (trace + [e])[..|trace|] == trace;
  }

  predicate Matches(r: Record, p: Proc)
    requires Shaped(p)
  {
    && r.asked == p.requesting
    && (p.requesting ==> r.askedAt == p.stamp[p.id])
    && r.completed == p.rounds
    && r.clock <= p.clock
    && r.wait == p.stats.waitTicks && r.longest == p.stats.longestWait
    && p.stats.entries == p.rounds + (if p.inside then 1 else 0)
  }

  ghost predicate Owns(g: Global, owner: nat)
    requires Formed(g)
  {
    forall i :: 1 <= i <= g.n ==> g.procs[i].inside == (i == owner)
  }

  ghost predicate Traced(g: Global)
    requires Formed(g)
  {
    var v := Check(g.n, g.trace);
    && v.Sound? && |v.records| == g.n + 1 && v.owner <= g.n
    && Owns(g, v.owner)
    && forall i :: 1 <= i <= g.n ==> Matches(v.records[i], g.procs[i])
  }

  /** The variables the trace tells about, apart from the clock. */
  predicate SameStory(p: Proc, q: Proc)
    requires Shaped(p) && Shaped(q) && p.id == q.id
  {
    && q.requesting == p.requesting && q.inside == p.inside && q.stamp[q.id] == p.stamp[p.id]
    && q.rounds == p.rounds && q.clock >= p.clock
    && q.stats.entries == p.stats.entries && q.stats.waitTicks == p.stats.waitTicks
    && q.stats.longestWait == p.stats.longestWait
  }

  lemma UneventfulReception(p: Proc, from: nat, m: Msg)
    requires Shaped(p) && from <= p.n && from != p.id
    ensures SameStory(p, Dispatch(p, from, m))
  {
    var q := Delivered(p, m);
    assert SameStory(p, q);
    if Rejected(q, from, m) {
      assert SameStory(q, Effect(q, from, m));
    } else {
      match m.kind
      case STARTED =>
      case DONE =>
      case CS_REQUEST =>
      case CS_REPLY =>
      case _ =>
    }
  }

  lemma UneventfulAction(p: Proc, a: Action)
    requires Shaped(p) && Allowed(p, a) && !a.Request? && !a.Enter? && !a.Exit?
    ensures SameStory(p, Do(p, a))
  {
    match a
    case Start(_) =>
    case LeaveStarted =>
    case Finish(_) =>
    case LeaveDone =>
    case Write =>
    case Recv(from, m) => UneventfulReception(p, from, m);
  }

  lemma EventlessStep(g: Global, s: Step, i: nat)
    requires Formed(g) && Enabled(g, s) && 1 <= i <= g.n
    requires !s.a.Request? && !s.a.Enter? && !s.a.Exit?
    ensures SameStory(g.procs[i], Apply(g, s).procs[i])
    ensures Apply(g, s).trace == g.trace
  {
    if s.k == i { UneventfulAction(g.procs[i], s.a); }
    assert g.trace + [] == g.trace;
  }

  lemma NobodyInsideAtEntry(g: Global, s: Step, i: nat)
    requires Inv(g) && Exclusive(g) && Enabled(g, s) && s.a.Enter? && 1 <= i <= g.n
    ensures s.k >= 1 && !g.procs[i].inside
  {
    if s.k == 0 { ParentNeverEnters(g, s); }
    assert ChildInv(g.procs[i]) && ChildInv(g.procs[s.k]);
    if i != s.k && g.procs[i].inside {
      assert Pair(g, i, s.k);
      EntryIsMinimal(g, s, i);
    }
  }

  lemma EventlessKeepsTraced(g: Global, s: Step)
    requires Formed(g) && Traced(g) && Enabled(g, s) && !s.a.Request? && !s.a.Enter? && !s.a.Exit?
    ensures Traced(Apply(g, s))
  {
    var h, v := Apply(g, s), Check(g.n, g.trace);
    EventlessStep(g, s, 1);
    forall i | 1 <= i <= g.n
      ensures Matches(v.records[i], h.procs[i]) && h.procs[i].inside == g.procs[i].inside
    {
      EventlessStep(g, s, i);
    }
  }

  /** The checker accepts the next event of a process it has a matching record of. */
  lemma EventAccepted(v: Verdict, p: Proc, a: Action)
    requires Shaped(p) && p.id >= 1 && ChildInv(p) && Allowed(p, a) && (a.Request? || a.Enter? || a.Exit?)
    requires v.Sound? && p.id < |v.records| && Matches(v.records[p.id], p)
    requires a.Enter? ==> v.owner == 0
    requires a.Exit? ==> v.owner == p.id
    ensures var w := Read(v, NewEvents(p, a)[0]);
            && w.Sound? && |w.records| == |v.records| && Matches(w.records[p.id], Do(p, a))
            && w.owner == (if a.Enter? then p.id else if a.Exit? then 0 else v.owner)
            && forall i :: 0 <= i < |v.records| && i != p.id ==> w.records[i] == v.records[i]
  {
    match a
    case Request =>
    case Enter =>
    case Exit =>
  }

  lemma OwnerAtEntry(g: Global, s: Step, owner: nat)
    requires Inv(g) && Exclusive(g) && Enabled(g, s) && s.a.Enter? && Owns(g, owner) && owner <= g.n
    ensures owner == 0
  {
    if owner >= 1 { NobodyInsideAtEntry(g, s, owner); }
  }

  lemma EventKeepsTraced(g: Global, s: Step)
    requires Inv(g) && Exclusive(g) && Traced(g) && Enabled(g, s) && (s.a.Request? || s.a.Enter? || s.a.Exit?)
    ensures Traced(Apply(g, s))
  {
    var h, v, p := Apply(g, s), Check(g.n, g.trace), g.procs[s.k];
    if s.k == 0 { ParentNeverEnters(g, s); }
    assert ChildInv(p);
    if s.a.Enter? { OwnerAtEntry(g, s, v.owner); }
    CheckNext(g.n, g.trace, NewEvents(p, s.a)[0]);
    EventAccepted(v, p, s.a);
    assert p.inside == (s.k == v.owner);
    forall i | 1 <= i <= g.n
      ensures Matches(Check(h.n, h.trace).records[i], h.procs[i])
      ensures h.procs[i].inside == (i == Check(h.n, h.trace).owner)
    {
      assert g.procs[i].inside == (i == v.owner);
    }
  }

  lemma StepKeepsTraced(g: Global, s: Step)
    requires Inv(g) && Exclusive(g) && Traced(g) && Enabled(g, s)
    ensures Traced(Apply(g, s))
  {
    if s.a.Request? || s.a.Enter? || s.a.Exit? { EventKeepsTraced(g, s); } else { EventlessKeepsTraced(g, s); }
  }

  /** Every trace passes the checker: sections never overlap, requests and entries
      alternate with the right iteration numbers, clocks never step back, and the
      recorded waiting times are the ones the statistics report. */
  lemma {:induction false} TraceIsSound(n: nat, states: seq<Global>, run: seq<Step>, t: nat)
    requires Behaviour(n, states, run) && t <= |run|
    ensures Inv(states[t]) && states[t].n == n && Exclusive(states[t]) && Traced(states[t])
  {
    ExclusiveAlways(n, states, run, t);
    if t > 0 {
      TraceIsSound(n, states, run, t - 1);
      assert StepAt(states, run, t - 1);
      StepKeepsTraced(states[t - 1], run[t - 1]);
    }
  }

  /** When each line is written: a request with its own stamp, entry and exit without
      moving the clock, so that the release is stamped one later than its EXIT line. */
  lemma LinesTell(n: nat, states: seq<Global>, run: seq<Step>, t: nat)
    requires Behaviour(n, states, run) && t < |run|
    ensures Formed(states[t]) && Formed(states[t + 1]) && run[t].k <= states[t].n == states[t + 1].n
    ensures var k, g, h := run[t].k, states[t], states[t + 1];
            var round, out := g.procs[k].rounds + 1, h.procs[k].out;
            match run[t].a
            case Request =>
              && out.Sending? && out.frame.kind.CS_REQUEST? && h.procs[k].stamp[k] == out.frame.ts
              && h.trace == g.trace + [Requested(k, out.frame.ts, round)]
            case Enter =>
              && h.procs[k].clock == g.procs[k].clock
              && h.trace == g.trace + [Entered(k, g.procs[k].clock, round, g.procs[k].stamp[k])]
            case Exit =>
              && out.Sending? && out.frame.kind.CS_RELEASE?
              && h.trace == g.trace + [Left(k, out.frame.ts - 1, round)]
            case _ => h.trace == g.trace
  {
    assert StepAt(states, run, t);
    assert states[t].trace + [] == states[t].trace;
  }

  // ---------- grants follow the request order ----------

  predicate InOrder(trace: seq<Event>) {
    forall x, y :: 0 <= x < y < |trace| && trace[x].Entered? && trace[y].Entered? ==>
      Before(trace[x].ts, trace[x].id, trace[y].ts, trace[y].id)
  }

  /** Everything `p` asks for, now or later, comes after the grant `e`. */
  predicate Outdates(e: Event, p: Proc)
    requires Shaped(p) && e.Entered?
  {
    && (p.requesting && !p.inside ==> Before(e.ts, e.id, p.stamp[p.id], p.id))
    && (p.inside ==> e.ts <= p.stamp[p.id])
    && (!p.requesting ==> e.ts <= p.clock)
  }

  ghost predicate GrantsOrdered(g: Global)
    requires Formed(g)
  {
    && InOrder(g.trace)
    && forall x, j :: 0 <= x < |g.trace| && g.trace[x].Entered? && 1 <= j <= g.n ==> Outdates(g.trace[x], g.procs[j])
  }

  lemma NewGrantOutdates(g: Global, s: Step, j: nat)
    requires Inv(g) && Exclusive(g) && Enabled(g, s) && s.a.Enter? && 1 <= j <= g.n
    ensures Outdates(NewEvents(g.procs[s.k], s.a)[0], Apply(g, s).procs[j])
  {
    NobodyInsideAtEntry(g, s, j);
    if j != s.k {
      assert Pair(g, s.k, j);
      EntryIsMinimal(g, s, j);
    }
  }

  lemma OldGrantOutdates(g: Global, s: Step, e: Event, j: nat)
    requires Inv(g) && Enabled(g, s) && e.Entered? && 1 <= j <= g.n && Outdates(e, g.procs[j])
    ensures Outdates(e, Apply(g, s).procs[j])
  {
    if !s.a.Request? && !s.a.Enter? && !s.a.Exit? {
      EventlessStep(g, s, j);
    } else {
      assert ChildInv(g.procs[j]);
    }
  }

  lemma StepKeepsGrants(g: Global, s: Step)
    requires Inv(g) && Exclusive(g) && GrantsOrdered(g) && Enabled(g, s)
    ensures GrantsOrdered(Apply(g, s))
  {
    var h := Apply(g, s);
    if s.a.Enter? { NobodyInsideAtEntry(g, s, 1); assert ChildInv(g.procs[s.k]); }
    forall x, j | 0 <= x < |h.trace| && h.trace[x].Entered? && 1 <= j <= h.n
      ensures Outdates(h.trace[x], h.procs[j])
    {
      if x < |g.trace| { OldGrantOutdates(g, s, g.trace[x], j); } else { NewGrantOutdates(g, s, j); }
    }
  }

  lemma NextGrants(n: nat, states: seq<Global>, run: seq<Step>, t: nat)
    requires Behaviour(n, states, run) && t < |run| && Formed(states[t]) && GrantsOrdered(states[t])
    ensures Formed(states[t + 1]) && GrantsOrdered(states[t + 1])
  {
    assert StepAt(states, run, t);
    ExclusiveAlways(n, states, run, t);
    StepKeepsGrants(states[t], run[t]);
  }

  /** Over a whole run the critical section is granted in strictly increasing order
      of (timestamp, id): nobody is overtaken by a younger request. */
  lemma {:induction false} GrantOrder(n: nat, states: seq<Global>, run: seq<Step>, t: nat)
    requires Behaviour(n, states, run) && t <= |run|
    ensures Formed(states[t]) && GrantsOrdered(states[t])
    ensures var trace := states[t].trace;
            forall x, y :: 0 <= x < y < |trace| && trace[x].Entered? && trace[y].Entered? ==>
              trace[x].ts < trace[y].ts || (trace[x].ts == trace[y].ts && trace[x].id < trace[y].id)
  {
    if t == 0 {
      InvAlways(n, states, run, 0);
    } else {
      GrantOrder(n, states, run, t - 1);
      NextGrants(n, states, run, t - 1);
    }
  }
}
