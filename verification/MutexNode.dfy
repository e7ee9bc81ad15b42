/** The program of one process: the Node structure and the functions that update it.
    Every method is proved to move along a path of the automaton in MutexProcess;
    blocking receives take their frames from an arbitrary finite supply. */
module MutexNode {
  import opened Seqs
  import opened Wire
  import opened MutexProcess
  import opened MutexPath

  /** Done; the supply ran dry; the call was refused; a protocol check ended the
      program; a clock check ended the program. */
  datatype Outcome = Ok | Blocked | Refused | Crashed | Overflow

  class Node {
    const id: nat
    const children: nat
    var clock: int
    var sender: nat
    const started: array<bool>
    const done: array<bool>
    const queued: array<bool>
    const replied: array<bool>
    const requestedAt: array<int>
    var requesting: bool
    var inside: bool
    var iteration: nat
    var stats: Stats
    /** Frames still to be delivered, each with its sender. */
    var inbox: Frames
    ghost const supply: Frames
    /** What this process has written to the trace file. */
    var trace: seq<Event>
    /** Control state, rounds done, actions taken, frames written. */
    ghost var pc: Pc
    ghost var rounds: nat
    ghost var path: seq<Action>
    ghost var wire: Frames
    /** The action a failed check cut short. */
    ghost var tripped: Action

    ghost predicate Shape()
      reads this`inbox
    {
      && children >= 1 && id <= children
      && started.Length == done.Length == queued.Length == replied.Length == requestedAt.Length == children + 1
      && started != done && started != queued && started != replied
      && done != queued && done != replied && queued != replied
      && (forall d :: d in inbox ==> d.0 <= children && d.0 != id)
    }

    ghost function State(): (p: Proc)
      reads this`clock, this`requesting, this`inside, this`stats, this`pc, this`rounds, this`inbox
      reads started, done, queued, replied, requestedAt
      requires Shape()
      ensures Shaped(p) && p.id == id && p.n == children && p.out.Quiet? && p.pc == pc
    {
      Proc(id, children, pc, clock, rounds, started[..], done[..], queued[..], replied[..], requestedAt[..],
           requesting, inside, Quiet, stats)
    }

    /** The variables are where the path of actions leads, the frames written are
        the frames of that path, and the deliveries so far are what has left the supply. */
    ghost predicate Valid()
      reads this, started, done, queued, replied, requestedAt
    {
      Shape() && OnPath(State(), wire, inbox, trace)
    }

    /** Where the path so far has led. */
    ghost predicate OnPath(p: Proc, written: Frames, queue: Frames, lines: seq<Event>)
      reads this`path
    {
      && Follow(Init(id, children), path) == At(p, written)
      && Deliveries(path) + queue == supply
      && lines == Lines(Init(id, children), path)
    }

    /** A check has ended the program: the action that was due fails in the automaton. */
    ghost predicate Stopped(overflow: bool)
      reads this`path, this`tripped
    {
      var l := Follow(Init(id, children), path);
      && l.At? && Shaped(l.p) && Allowed(l.p, tripped)
      && (if overflow then Overflows(l.p, tripped)
          else tripped.Recv? && Rejected(l.p, tripped.from, tripped.msg))
    }

    /** What a method that waits for frames leaves behind. */
    ghost predicate Settled(r: Outcome)
      reads this, started, done, queued, replied, requestedAt
    {
      && (r.Ok? || r.Blocked? ==> Valid())
      && (r.Blocked? ==> inbox == [] && Waiting(State()))
      && (r.Crashed? ==> Stopped(false))
      && (r.Overflow? ==> Stopped(true))
    }

    constructor (id: nat, children: nat, inbox: Frames)
      requires children >= 1 && id <= children
      requires forall d :: d in inbox ==> d.0 <= children && d.0 != id
      ensures Valid() && this.id == id && this.children == children && supply == inbox && path == [] && trace == []
      ensures State() == Init(id, children)
      ensures fresh(started) && fresh(done) && fresh(queued) && fresh(replied) && fresh(requestedAt)
    {
      this.id := id;
      this.children := children;
      clock, sender, requesting, inside, iteration, stats := 0, 0, false, false, 0, NO_STATS;
      started := new bool[children + 1](_ => false);
      done := new bool[children + 1](_ => false);
      queued := new bool[children + 1](_ => false);
      replied := new bool[children + 1](_ => false);
      requestedAt := new int[children + 1](_ => 0);
      this.inbox, supply, trace := inbox, inbox, [];
      pc, rounds, path, wire := if id == PARENT then AwaitStarted else Boot, 0, [], [];
      new;
      assert started[..] == done[..] == queued[..] == replied[..] == Flags(children);
      assert requestedAt[..] == Zeros(children);
    }

    // ---------- clock ----------

    method ClockSend() returns (ok: bool)
      modifies this`clock
      ensures ok == (old(clock) != 32767)
      ensures clock == if ok then old(clock) + 1 else old(clock)
    {
      if clock == INT16_MAX { return false; }
      clock := clock + 1;
      ok := true;
    }

    method ClockReceive(remote: int) returns (ok: bool)
      modifies this`clock
      ensures ok == !(remote < 0 || remote == 32767 || old(clock) == 32767)
      ensures clock == if ok then (if remote > old(clock) then remote else old(clock)) + 1 else old(clock)
    {
      if remote < 0 || remote == INT16_MAX || clock == INT16_MAX { return false; }
      if remote > clock { clock := remote; }
      clock := clock + 1;
      ok := true;
    }

    // ---------- statistics ----------

    method StatsMessage(kind: Kind, outgoing: bool)
      modifies this`stats
      ensures stats == if outgoing then old(stats).(sent := Bump(old(stats).sent, kind))
                       else old(stats).(received := Bump(old(stats).received, kind))
    {
      if outgoing { stats := stats.(sent := Bump(stats.sent, kind)); }
      else { stats := stats.(received := Bump(stats.received, kind)); }
    }

    method StatsEntry()
      requires Shape()
      modifies this`stats
      ensures stats == CountEntry(old(stats), clock - requestedAt[id])
    {
      var elapsed := clock - requestedAt[id];
      stats := stats.(entries := stats.entries + 1, waitTicks := stats.waitTicks + elapsed);
      if elapsed > stats.longestWait { stats := stats.(longestWait := elapsed); }
    }

    // ---------- sending ----------

    method WriteFrame(target: nat, m: Msg)
      modifies this`stats, this`wire
      ensures wire == old(wire) + [(target, m)]
      ensures stats == old(stats).(sent := Bump(old(stats).sent, m.kind))
    {
      wire := wire + [(target, m)];
      StatsMessage(m.kind, true);
    }

    /** The loop over the targets first..children, the own id left out. */
    method WriteAll(m: Msg, first: nat)
      requires Shape() && first <= children
      modifies this`stats, this`wire
      ensures State() == Drained(old(State()).(out := Sending(m, first, children)))
      ensures wire == old(wire) + Spilled(old(State()).(out := Sending(m, first, children)))
    {
      ghost var p, before := State(), wire;
      ghost var whole := p.(out := Sending(m, first, children));
      var target := first;
      while target <= children
        invariant first <= target <= children + 1
        invariant target <= children ==>
                    var rest := p.(stats := stats, out := Sending(m, target, children));
                    Drained(rest) == Drained(whole) && wire + Spilled(rest) == before + Spilled(whole)
        invariant target == children + 1 ==> p.(stats := stats) == Drained(whole) && wire == before + Spilled(whole)
      {
        ghost var rest, was := p.(stats := stats, out := Sending(m, target, children)), wire;
        if target != id { WriteFrame(target, m); }
        OneWrite(rest, was);
        target := target + 1;
      }
      assert State() == p.(stats := stats);
    }

    method SendMulticast(kind: Kind, size: nat) returns (ok: bool)
      requires Shape()
      modifies this`clock, this`stats, this`wire
      ensures ok == (old(clock) != 32767)
      ensures ok ==> State() == Drained(Broadcast(old(State()), kind, size, 0))
      ensures ok ==> wire == old(wire) + Spilled(Broadcast(old(State()), kind, size, 0))
    {
      ok := ClockSend();
      if !ok { return; }
      WriteAll(Msg(kind, clock, size), 0);
    }

    method SendChildren(kind: Kind) returns (ok: bool)
      requires Shape()
      modifies this`clock, this`stats, this`wire
      ensures ok == (old(clock) != 32767)
      ensures ok ==> State() == Drained(Broadcast(old(State()), kind, 0, 1))
      ensures ok ==> wire == old(wire) + Spilled(Broadcast(old(State()), kind, 0, 1))
    {
      ok := ClockSend();
      if !ok { return; }
      WriteAll(Msg(kind, clock, 0), 1);
    }

    /** A single frame to `dst`; refused for the own id and unknown processes. */
    method Send(dst: nat, kind: Kind) returns (r: Outcome)
      requires Shape()
      modifies this`clock, this`stats, this`wire
      ensures r.Refused? <==> dst > children || dst == id
      ensures r.Overflow? <==> !(dst > children || dst == id) && old(clock) == 32767
      ensures r.Ok? || r.Refused? || r.Overflow?
      ensures r.Ok? ==> clock == old(clock) + 1 && wire == old(wire) + [(dst, Msg(kind, clock, 0))]
                        && stats == old(stats).(sent := Bump(old(stats).sent, kind))
      ensures !r.Ok? ==> clock == old(clock) && wire == old(wire) && stats == old(stats)
    {
      if dst > children || dst == id { return Refused; }
      var ok := ClockSend();
      if !ok { return Overflow; }
      WriteFrame(dst, Msg(kind, clock, 0));
      r := Ok;
    }

    // ---------- the request table ----------

    method FirstAndConfirmed() returns (b: bool)
      requires Shape()
      ensures b <==> forall peer :: 1 <= peer <= children && peer != id ==>
                       replied[peer] &&
                       (queued[peer] ==>
                          requestedAt[id] < requestedAt[peer]
                          || (requestedAt[id] == requestedAt[peer] && id < peer))
      ensures b == MutexProcess.FirstAndConfirmed(State())
    {
      var own := requestedAt[id];
      for peer := 1 to children + 1
        invariant forall x :: 1 <= x < peer && x != id ==>
                    replied[x] && (queued[x] ==> own < requestedAt[x] || (own == requestedAt[x] && id < x))
      {
        if peer == id { continue; }
        if !replied[peer] { return false; }
        if queued[peer] && (requestedAt[peer] < own || (requestedAt[peer] == own && peer < id)) { return false; }
      }
      b := true;
    }

    method AllReceived(received: array<bool>) returns (b: bool)
      requires Shape() && received.Length == children + 1
      ensures b == AllMarked(State(), received[..])
    {
      for peer := 1 to children + 1
        invariant forall x :: 1 <= x < peer && x != id ==> received[x]
      {
        if peer != id && !received[peer] { return false; }
      }
      b := true;
    }

    // ---------- receiving ----------

    /** Enter a request into the table and answer it at once. */
    method TakeRequest(peer: nat, m: Msg) returns (r: Outcome)
      requires Shape() && peer <= children && peer != id && m.kind.CS_REQUEST?
      modifies this`clock, this`stats, this`wire, queued, requestedAt
      ensures r.Crashed? <==> Rejected(old(State()), peer, m)
      ensures r.Overflow? <==> !Rejected(old(State()), peer, m) && old(clock) == 32767
      ensures r.Ok? || r.Crashed? || r.Overflow?
      ensures r.Ok? ==> State() == Drained(Effect(old(State()), peer, m))
      ensures r.Ok? ==> wire == old(wire) + Spilled(Effect(old(State()), peer, m))
    {
      ghost var p := State();
      if peer == PARENT || id == PARENT || m.size != 0 { return Crashed; }
      if queued[peer] || done[peer] { return Crashed; }
      queued[peer] := true;
      requestedAt[peer] := m.ts;
      var sent := Send(peer, CS_REPLY);
      if !sent.Ok? { return Overflow; }
      ReplySettles(Effect(p, peer, m));
      r := Ok;
    }

    /** The switch over the message type. */
    method Handle(peer: nat, m: Msg) returns (r: Outcome)
      requires Shape() && peer <= children && peer != id
      modifies this`clock, this`stats, this`wire, started, done, queued, replied, requestedAt
      ensures r.Crashed? <==>
                match m.kind
                case STARTED => false
                case DONE => old(queued[peer])
                case CS_REQUEST => peer == 0 || id == 0 || m.size > 0 || old(queued[peer]) || old(done[peer])
                case CS_REPLY => peer == 0 || id == 0 || m.size > 0 || !old(requesting)
                case CS_RELEASE => peer == 0 || id == 0 || m.size > 0 || !old(queued[peer])
                case _ => true
      ensures r.Crashed? <==> Rejected(old(State()), peer, m)
      ensures r.Overflow? <==> m.kind.CS_REQUEST? && !Rejected(old(State()), peer, m) && old(clock) == 32767
      ensures r.Ok? || r.Crashed? || r.Overflow?
      ensures r.Ok? ==> State() == Drained(Effect(old(State()), peer, m))
      ensures r.Ok? ==> wire == old(wire) + Spilled(Effect(old(State()), peer, m))
    {
      match m.kind {
        case STARTED =>
          started[peer] := true;
        case DONE =>
          done[peer] := true;
          if queued[peer] { return Crashed; }
        case CS_REQUEST =>
          r := TakeRequest(peer, m);
          return;
        case CS_REPLY =>
          if peer == PARENT || id == PARENT || m.size != 0 { return Crashed; }
          if !requesting { return Crashed; }
          replied[peer] := true;
        case CS_RELEASE =>
          if peer == PARENT || id == PARENT || m.size != 0 { return Crashed; }
          if !queued[peer] { return Crashed; }
          queued[peer] := false;
        case _ =>
          return Crashed;
      }
      r := Ok;
    }

    /** Wait for the next frame; its delivery counts and moves the clock. */
    method AwaitAny() returns (r: Outcome, m: Msg)
      requires Shape()
      modifies this`clock, this`stats, this`sender, this`inbox
      ensures Shape()
      ensures r.Blocked? <==> old(inbox) == []
      ensures r.Blocked? ==> State() == old(State()) && inbox == []
      ensures !r.Blocked? ==> sender == old(inbox)[0].0 && m == old(inbox)[0].1 && inbox == old(inbox)[1..]
      ensures r.Ok? ==> State() == Delivered(old(State()), m)
      ensures r.Overflow? ==> m.ts < 0 || m.ts == 32767 || old(clock) == 32767
      ensures r.Ok? || r.Blocked? || r.Overflow?
    {
      if inbox == [] { return Blocked, Msg(STARTED, 0, 0); }
      assert inbox[0] in inbox;
      sender, m := inbox[0].0, inbox[0].1;
      inbox := inbox[1..];
      StatsMessage(m.kind, false);
      var ok := ClockReceive(m.ts);
      r := if ok then Ok else Overflow;
    }

    /** Take in one frame and act on it; `a` is the action of the automaton. */
    method TakeFrame() returns (r: Outcome, ghost a: Action)
      requires Shape() && Waiting(State())
      modifies this`clock, this`stats, this`wire, this`sender, this`inbox
      modifies started, done, queued, replied, requestedAt
      ensures Shape() && !r.Refused?
      ensures r.Blocked? <==> old(inbox) == []
      ensures r.Blocked? ==> State() == old(State()) && wire == old(wire) && inbox == []
      ensures !r.Blocked? ==> a == Recv(old(inbox)[0].0, old(inbox)[0].1) && Allowed(old(State()), a)
      ensures r.Ok? ==>
                && inbox == old(inbox)[1..]
                && State() == Drained(Do(old(State()), a))
                && wire == old(wire) + Spilled(Do(old(State()), a))
      ensures r.Crashed? ==> Rejected(old(State()), a.from, a.msg)
      ensures r.Overflow? ==> Overflows(old(State()), a)
    {
      ghost var p, queue := State(), inbox;
      var m;
      a := Write;
      r, m := AwaitAny();
      if r.Blocked? { return; }
      assert queue[0] in queue;
      a := Recv(sender, m);
      if r.Overflow? { return; }
      assert State() == Delivered(p, m);
      assert Rejected(Delivered(p, m), sender, m) == Rejected(p, sender, m);
      r := Handle(sender, m);
    }

    method Dispatch() returns (r: Outcome)
      requires Valid() && Waiting(State())
      modifies this`clock, this`stats, this`wire, this`sender, this`inbox, this`path, this`tripped
      modifies started, done, queued, replied, requestedAt
      ensures Settled(r) && !r.Refused?
      ensures r.Blocked? <==> old(inbox) == []
      ensures r.Ok? ==> |inbox| < |old(inbox)|
      ensures r.Ok? ==> State() == Drained(Do(old(State()), Recv(old(inbox)[0].0, old(inbox)[0].1)))
    {
      ghost var p, before, queue := State(), wire, inbox;
      ghost var a;
      r, a := TakeFrame();
      if r.Blocked? { return; }
      tripped := a;
      if !r.Ok? { return; }
      RecordQuietly(a, p, before, queue);
    }

    /** Take the action `a`, whose frames and lines have been written by now, onto the path;
        `queue` is what the inbox was before. */
    ghost method Record(a: Action, p: Proc, before: Frames, queue: Frames, lines: seq<Event>)
      requires Shape() && Shaped(p) && p.out.Quiet? && Allowed(p, a) && OnPath(p, before, queue, lines)
      requires State() == Drained(Do(p, a)) && wire == before + Spilled(Do(p, a)) && trace == lines + NewEvents(p, a)
      requires if a.Recv? then queue != [] && queue[0] == (a.from, a.msg) && inbox == queue[1..] else inbox == queue
      modifies this`path
      ensures Valid()
    {
      FollowComplete(Init(id, children), path, p, before, a);
      if a.Recv? { DeliveriesShift(queue, a.from, a.msg); }
      else { assert Deliveries(path) + [] == Deliveries(path); }
      path := path + Complete(p, a);
    }

    /** The same for an action that is not traced. */
    ghost method RecordQuietly(a: Action, p: Proc, before: Frames, queue: Frames)
      requires Shape() && Shaped(p) && p.out.Quiet? && Allowed(p, a) && OnPath(p, before, queue, trace)
      requires !a.Request? && !a.Enter? && !a.Exit?
      requires State() == Drained(Do(p, a)) && wire == before + Spilled(Do(p, a))
      requires if a.Recv? then queue != [] && queue[0] == (a.from, a.msg) && inbox == queue[1..] else inbox == queue
      modifies this`path
      ensures Valid()
    {
      assert NewEvents(p, a) == [] && trace + [] == trace;
      Record(a, p, before, queue, trace);
    }

    // ---------- the critical section ----------

    /** Forget old replies and put the own request into the table. */
    method PlaceRequest()
      requires Shape()
      modifies this`requesting, replied, queued
      ensures State() == old(State()).(requesting := true, replied := Flags(children),
                                       queued := old(State()).queued[id := true])
    {
      ghost var p := State();
      for peer := 0 to children + 1
        modifies replied
        invariant forall x :: 0 <= x < peer ==> !replied[x]
      {
        replied[peer] := false;
      }
      assert replied[..] == Flags(children);
      requesting := true;
      queued[id] := true;
      assert queued[..] == p.queued[id := true];
    }

    /** The first half of request_cs: clear the replies, stamp, broadcast, note the stamp. */
    method Ask() returns (ok: bool)
      requires Shape() && pc.Idle? && rounds < 5 * id
      modifies this`requesting, this`clock, this`stats, this`wire, this`pc, replied, queued, requestedAt
      ensures ok == (old(clock) != 32767)
      ensures ok ==> clock == old(clock) + 1
      ensures ok ==> State() == Drained(Do(old(State()), Request))
      ensures ok ==> wire == old(wire) + Spilled(Do(old(State()), Request))
    {
      ghost var p := State();
      PlaceRequest();
      RequestSettles(p, State());
      ok := SendChildren(CS_REQUEST);
      if !ok { return; }
      requestedAt[id] := clock;
      assert requestedAt[..] == p.stamp[id := clock];
      pc := AwaitCs;
    }

    /** The same, and the trace line. */
    method AskAloud() returns (ok: bool)
      requires Shape() && pc.Idle? && rounds < 5 * id && iteration == rounds + 1
      modifies this`requesting, this`clock, this`stats, this`wire, this`pc, this`trace, replied, queued, requestedAt
      ensures ok == (old(clock) != 32767)
      ensures ok ==> State() == Drained(Do(old(State()), Request))
      ensures ok ==> wire == old(wire) + Spilled(Do(old(State()), Request))
      ensures ok ==> clock == old(clock) + 1 && trace == old(trace) + [Requested(id, clock, iteration)]
      ensures ok ==> trace == old(trace) + NewEvents(old(State()), Request)
    {
      ok := Ask();
      if ok { trace := trace + [Requested(id, clock, iteration)]; }
    }

    method RequestCs() returns (r: Outcome)
      requires Valid()
      requires id != PARENT && !requesting && !inside ==> pc.Idle? && rounds < 5 * id && iteration == rounds + 1
      modifies this, replied, queued, requestedAt, started, done
      ensures r.Refused? <==> old(id == PARENT || requesting || inside)
      ensures r.Refused? ==> Valid() && State() == old(State()) && inbox == old(inbox)
      ensures Settled(r)
      ensures r.Ok? ==> pc.InCs? && inside && requesting && rounds == old(rounds) && iteration == old(iteration)
    {
      if id == PARENT || requesting || inside { return Refused; }
      r := Apply();
      if !r.Ok? { return; }
      r := AwaitTurn();
      if !r.Ok? { return; }
      ghost var p, before, lines := State(), wire, trace;
      Admit();
      Record(Enter, p, before, inbox, lines);
    }

    /** Ask, and take it onto the path. */
    method Apply() returns (r: Outcome)
      requires Valid() && pc.Idle? && rounds < 5 * id && iteration == rounds + 1
      modifies this`requesting, this`clock, this`stats, this`wire, this`pc, this`path, this`tripped, this`trace
      modifies replied, queued, requestedAt
      ensures Settled(r) && (r.Ok? || r.Overflow?)
      ensures r.Ok? ==> pc.AwaitCs? && requesting
      ensures r.Ok? ==> trace == old(trace) + [Requested(id, clock, iteration)] && clock == old(clock) + 1
    {
      ghost var p, before, lines := State(), wire, trace;
      tripped := Request;
      var ok := AskAloud();
      if !ok { return Overflow; }
      Record(Request, p, before, inbox, lines);
      r := Ok;
    }

    method Admit()
      requires Shape() && pc.AwaitCs? && MutexProcess.FirstAndConfirmed(State()) && iteration == rounds + 1
      modifies this`inside, this`stats, this`pc, this`trace
      ensures trace == old(trace) + [Entered(id, clock, iteration, requestedAt[id])]
      ensures trace == old(trace) + NewEvents(old(State()), Enter)
      ensures State() == Drained(Do(old(State()), Enter))
      ensures wire == old(wire) + Spilled(Do(old(State()), Enter))
    {
      inside := true;
      StatsEntry();
      trace := trace + [Entered(id, clock, iteration, requestedAt[id])];
      pc := InCs;
    }

    /** Dispatch until the own request is first and confirmed. */
    method AwaitTurn() returns (r: Outcome)
      requires Valid() && pc.AwaitCs?
      modifies this`clock, this`stats, this`wire, this`sender, this`inbox, this`path, this`tripped
      modifies started, done, queued, replied, requestedAt
      ensures Settled(r) && !r.Refused?
      ensures r.Ok? ==> MutexProcess.FirstAndConfirmed(State())
    {
      var first := FirstAndConfirmed();
      while !first
        invariant Valid() && first == MutexProcess.FirstAndConfirmed(State())
        decreases |inbox|
      {
        r := Dispatch();
        if !r.Ok? { return; }
        first := FirstAndConfirmed();
      }
      r := Ok;
    }

    method ReleaseCs() returns (r: Outcome)
      requires Valid()
      requires inside && requesting ==> pc.InCs? && iteration == rounds + 1
      modifies this`requesting, this`inside, this`clock, this`stats, this`wire, this`pc, this`path, this`tripped
      modifies this`rounds, this`trace, queued
      ensures r.Refused? <==> old(!inside || !requesting)
      ensures r.Refused? ==> Valid() && State() == old(State())
      ensures !r.Refused? ==> trace == old(trace) + [Left(id, old(clock), iteration)]
      ensures r.Overflow? ==> Stopped(true)
      ensures r.Ok? ==> Valid() && State() == Drained(Do(old(State()), Exit))
      ensures r.Ok? || r.Refused? || r.Overflow?
    {
      if !inside || !requesting { return Refused; }
      ghost var p, before, lines := State(), wire, trace;
      tripped := Exit;
      trace := trace + [Left(id, clock, iteration)];
      var ok := Leave();
      if !ok { return Overflow; }
      Record(Exit, p, before, inbox, lines);
      r := Ok;
    }

    /** Clear the own request and announce it. */
    method Leave() returns (ok: bool)
      requires Shape() && pc.InCs?
      modifies this`requesting, this`inside, this`clock, this`stats, this`wire, this`pc, this`rounds, queued
      ensures ok == (old(clock) != 32767)
      ensures ok ==> State() == Drained(Do(old(State()), Exit))
      ensures ok ==> wire == old(wire) + Spilled(Do(old(State()), Exit))
    {
      ghost var p := State();
      inside := false;
      requesting := false;
      queued[id] := false;
      assert queued[..] == p.queued[id := false];
      ExitSettles(p, State());
      ok := SendChildren(CS_RELEASE);
      if !ok { return; }
      pc, rounds := Idle, rounds + 1;
    }

    // ---------- the whole program ----------

    /** Broadcast STARTED or DONE; `size` is the length of the announcement text. */
    method Announce(kind: Kind, size: nat) returns (ok: bool)
      requires Shape() && size < LINE
      requires (kind.STARTED? && pc.Boot?) || (kind.DONE? && pc.Idle? && rounds >= 5 * id)
      modifies this`clock, this`stats, this`wire, this`pc
      ensures ok == (old(clock) != 32767)
      ensures var a := if kind.STARTED? then Start(size) else Finish(size);
              ok ==> State() == Drained(Do(old(State()), a)) && wire == old(wire) + Spilled(Do(old(State()), a))
    {
      ghost var p := State();
      AnnounceSettles(p, kind, size);
      ok := SendMulticast(kind, size);
      if !ok { return; }
      pc := if kind.STARTED? then AwaitStarted else AwaitDone;
    }

    /** Dispatch until every other child has been heard from. */
    method AwaitBarrier(received: array<bool>) returns (r: Outcome)
      requires Valid()
      requires (received == started && pc.AwaitStarted?) || (received == done && pc.AwaitDone?)
      modifies this`clock, this`stats, this`wire, this`sender, this`inbox, this`path, this`tripped
      modifies started, done, queued, replied, requestedAt
      ensures Settled(r) && !r.Refused?
      ensures r.Ok? ==> AllMarked(State(), received[..])
    {
      var all := AllReceived(received);
      while !all
        invariant Valid() && all == AllMarked(State(), received[..])
        decreases |inbox|
      {
        r := Dispatch();
        if !r.Ok? { return; }
        all := AllReceived(received);
      }
      r := Ok;
    }

    /** Leave a barrier everyone has reached. */
    ghost method PassBarrier(a: Action)
      requires Valid() && Allowed(State(), a) && (a.LeaveStarted? || a.LeaveDone?)
      modifies this`pc, this`path
      ensures Valid() && pc == Do(old(State()), a).pc
    {
      ghost var p, before := State(), wire;
      pc := Do(p, a).pc;
      assert State() == Do(p, a);
      assert before + [] == before;
      RecordQuietly(a, p, before, inbox);
    }

    /** One turn of the work loop: request, work, release. */
    method Round() returns (r: Outcome)
      requires Valid() && id != PARENT && pc.Idle? && rounds < 5 * id && !requesting && !inside
      requires iteration == rounds + 1
      modifies this, replied, queued, requestedAt, started, done
      ensures Settled(r) && !r.Refused?
      ensures r.Ok? ==> pc.Idle? && rounds == old(rounds) + 1 && !requesting && !inside
    {
      r := RequestCs();
      if !r.Ok? { return; }
      r := ReleaseCs();
    }

    method WorkLoop() returns (r: Outcome)
      requires Valid() && id != PARENT && pc.Idle? && rounds == 0 && !requesting && !inside
      modifies this, replied, queued, requestedAt, started, done
      ensures Settled(r) && !r.Refused?
      ensures r.Ok? ==> pc.Idle? && rounds == 5 * id
    {
      var total := id * 5;
      for round := 1 to total + 1
        invariant Valid() && pc.Idle? && rounds == round - 1 && !requesting && !inside
      {
        iteration := round;
        r := Round();
        if !r.Ok? { return; }
      }
      r := Ok;
    }

    /** Announce and take the announcement onto the path. */
    method Open(kind: Kind, size: nat) returns (r: Outcome)
      requires Valid() && size < LINE
      requires (kind.STARTED? && pc.Boot?) || (kind.DONE? && pc.Idle? && rounds >= 5 * id)
      modifies this`clock, this`stats, this`wire, this`pc, this`path, this`tripped
      ensures Settled(r) && (r.Ok? || r.Overflow?)
      ensures r.Ok? ==> pc == (if kind.STARTED? then AwaitStarted else AwaitDone)
    {
      ghost var p, before := State(), wire;
      ghost var a := if kind.STARTED? then Start(size) else Finish(size);
      tripped := a;
      var ok := Announce(kind, size);
      if !ok { return Overflow; }
      RecordQuietly(a, p, before, inbox);
      r := Ok;
    }

    /** Up to the work loop: STARTED to everybody and from every other child. */
    method JoinIn(size: nat) returns (r: Outcome)
      requires Valid() && pc.Boot? && id != PARENT && size < LINE
      modifies this`clock, this`stats, this`wire, this`pc, this`path, this`tripped, this`sender, this`inbox
      modifies started, done, queued, replied, requestedAt
      ensures Settled(r) && !r.Refused?
      ensures r.Ok? ==> pc.Idle?
    {
      r := Open(STARTED, size);
      if !r.Ok? { return; }
      r := AwaitBarrier(started);
      if !r.Ok? { return; }
      PassBarrier(LeaveStarted);
    }

    /** From the work loop on: DONE to everybody and from every other child. */
    method SignOff(size: nat) returns (r: Outcome)
      requires Valid() && pc.Idle? && rounds >= 5 * id && size < LINE
      modifies this`clock, this`stats, this`wire, this`pc, this`path, this`tripped, this`sender, this`inbox
      modifies started, done, queued, replied, requestedAt
      ensures Settled(r) && !r.Refused?
      ensures r.Ok? ==> pc.Exited?
    {
      r := Open(DONE, size);
      if !r.Ok? { return; }
      r := AwaitBarrier(done);
      if !r.Ok? { return; }
      PassBarrier(LeaveDone);
    }

    /** A child from start to exit, for any frames the network delivers. */
    method ChildRun(startedSize: nat, doneSize: nat) returns (r: Outcome)
      requires Valid() && id != PARENT && path == [] && startedSize < LINE && doneSize < LINE
      modifies this, replied, queued, requestedAt, started, done
      ensures Settled(r) && !r.Refused?
      ensures r.Ok? ==> pc.Exited? && rounds == 5 * id
    {
      r := JoinIn(startedSize);
      if !r.Ok? { return; }
      r := WorkLoop();
      if !r.Ok? { return; }
      r := SignOff(doneSize);
    }

    /** The parent only waits for both barriers. */
    method ParentRun() returns (r: Outcome)
      requires Valid() && id == PARENT && path == []
      modifies this, replied, queued, requestedAt, started, done
      ensures Settled(r) && !r.Refused?
      ensures r.Ok? ==> pc.Exited?
    {
      r := AwaitBarrier(started);
      if !r.Ok? { return; }
      PassBarrier(LeaveStarted);
      r := AwaitBarrier(done);
      if !r.Ok? { return; }
      PassBarrier(LeaveDone);
    }
  }

  /** What an announcement writes: one frame with the length of its text, for everybody
      including the parent. */
  lemma AnnouncementFrames(p: Proc, kind: Kind, size: nat)
    requires Shaped(p) && p.out.Quiet? && size < LINE
    requires (kind.STARTED? && p.pc.Boot?) || (kind.DONE? && p.pc.Idle? && p.rounds >= Rounds(p))
    ensures var a := if kind.STARTED? then Start(size) else Finish(size);
            Spilled(Do(p, a)) == Spilled(p.(out := Sending(Msg(kind, p.clock + 1, size), 0, p.n)))
  {
    var a := if kind.STARTED? then Start(size) else Finish(size);
    WritesIgnoreTheRest(Do(p, a).(stats := p.stats), p.(out := Sending(Msg(kind, p.clock + 1, size), 0, p.n)));
  }

  lemma AnnounceSettles(p: Proc, kind: Kind, size: nat)
    requires Shaped(p) && p.out.Quiet? && size < LINE
    requires (kind.STARTED? && p.pc.Boot?) || (kind.DONE? && p.pc.Idle? && p.rounds >= Rounds(p))
    ensures var a, y := if kind.STARTED? then Start(size) else Finish(size), Broadcast(p, kind, size, 0);
            && Drained(Do(p, a)) == Drained(y).(pc := if kind.STARTED? then AwaitStarted else AwaitDone)
            && Spilled(Do(p, a)) == Spilled(y)
  {
    WritesIgnoreTheRest(Do(p, if kind.STARTED? then Start(size) else Finish(size)), Broadcast(p, kind, size, 0));
  }

  lemma OneWrite(p: Proc, wire: Frames)
    requires Shaped(p) && p.out.Sending?
    ensures Drained(p) == Drained(WriteNext(p))
    ensures wire + Spilled(p) == (wire + Piece(p)) + Spilled(WriteNext(p))
    ensures p.out.next == p.out.last ==> Spilled(WriteNext(p)) == [] && Drained(p) == WriteNext(p)
    ensures wire + [] == wire
  {
    Regroup(wire, Piece(p), Spilled(WriteNext(p)));
    assert Spilled(p) == Piece(p) + Spilled(WriteNext(p));
  }

  /** Stamping late or early makes no difference to what is written. */
  lemma RequestSettles(p: Proc, x: Proc)
    requires Shaped(p) && p.out.Quiet? && Allowed(p, Request)
    requires x == p.(requesting := true, replied := Flags(p.n), queued := p.queued[p.id := true])
    ensures var y := Broadcast(x, CS_REQUEST, 0, 1);
            && Drained(Do(p, Request)) == Drained(y).(pc := AwaitCs, stamp := p.stamp[p.id := p.clock + 1])
            && Spilled(Do(p, Request)) == Spilled(y)
  {
    WritesIgnoreTheRest(Do(p, Request), Broadcast(x, CS_REQUEST, 0, 1));
  }

  lemma ExitSettles(p: Proc, x: Proc)
    requires Shaped(p) && p.out.Quiet? && Allowed(p, Exit)
    requires x == p.(requesting := false, inside := false, queued := p.queued[p.id := false])
    ensures var y := Broadcast(x, CS_RELEASE, 0, 1);
            && Drained(Do(p, Exit)) == Drained(y).(pc := Idle, rounds := p.rounds + 1)
            && Spilled(Do(p, Exit)) == Spilled(y)
  {
    WritesIgnoreTheRest(Do(p, Exit), Broadcast(x, CS_RELEASE, 0, 1));
  }

  lemma DeliveriesShift(queue: Frames, from: nat, m: Msg)
    requires queue != [] && queue[0] == (from, m)
    ensures forall d: Frames :: d + queue == (d + [(from, m)]) + queue[1..]
  {
    assert queue == [(from, m)] + queue[1..];
    forall d: Frames ensures d + queue == (d + [(from, m)]) + queue[1..] {
      Regroup(d, [(from, m)], queue[1..]);
    }
  }

  /** The loop over a single target runs once. */
  lemma ReplySettles(q: Proc)
    requires Shaped(q) && q.out.Sending? && q.out.next == q.out.last && q.out.next != q.id
    ensures Drained(q) == q.(out := Quiet, stats := q.stats.(sent := Bump(q.stats.sent, q.out.frame.kind)))
    ensures Spilled(q) == [(q.out.next, q.out.frame)]
  {
    assert WriteNext(q).out.Quiet?;
    assert Spilled(q) == Piece(q) + [];
  }
}
