/** The program of one process of the bank.  Every method is proved to move along a path
    of the automaton in BankProcess; what the network will deliver is an arbitrary
    finite queue per peer. */
module BankNode {
  import opened Seqs
  import opened Wire
  import opened LedgerCells
  import opened LedgerBuffer
  import opened Audit
  import opened BankProcess
  import opened BankLimits
  import opened BankPath

  /** Done; nothing left to receive; the call was refused; a protocol check, a clock check,
      a ledger check or the final check ended the program. */
  datatype Outcome = Ok | Blocked | Refused | Crashed | Overflow | LedgerFailed | AuditFailed

  predicate Storable(collected: seq<Cells>) {
    forall a :: 0 <= a < |collected| ==> 1 <= |collected[a]| <= UINT8_MAX
  }

  /** The action a failed check cut short: allowed, and stopped by that very check. */
  predicate Trips(p: Proc, a: Action, r: Outcome, script: seq<Order>)
    requires Shaped(p) && p.clock >= 0
  {
    && Allowed(p, a, script)
    && match r
       case Crashed => a.Recv? && Rejected(Moved(p, a.msg), a.from, a.msg)
       case LedgerFailed => LedgerStops(p, a)
       case Overflow => ClockStops(p, a)
       case _ => true
  }

  class Node {
    const id: nat
    const children: nat
    const opening: int
    /** The transfers bank_robbery asks for, in order. */
    const script: seq<Order>
    var clock: int
    var sender: nat
    const ledger: Ledger
    var stopped: bool
    var doneMask: seq<bool>
    var doneCount: nat
    var collected: seq<Cells>
    /** Frames still to be received, per sender. */
    const queues: array<seq<Frame>>
    ghost const supply: seq<seq<Frame>>
    ghost var pc: Pc
    ghost var path: seq<Action>
    ghost var wire: Posts
    ghost var tripped: Action

    ghost predicate Shape()
      reads this, ledger, ledger.history
    {
      && children >= 1 && id <= children && queues.Length == |supply| == |doneMask| == children + 1
      && ledger.Valid() && clock >= 0 && Storable(collected) && (forall o :: o in script ==> ValidOrder(o, children))
      && Shaped(Proc(id, children, pc, clock, Quiet, ledger.Cells(), stopped, doneMask, doneCount, collected))
    }

    ghost function State(): (p: Proc)
      reads this, ledger, ledger.history
      requires Shape()
      ensures Shaped(p) && p.id == id && p.n == children && p.out.Quiet? && p.pc == pc && p.clock == clock
    {
      Proc(id, children, pc, clock, Quiet, ledger.Cells(), stopped, doneMask, doneCount, collected)
    }

    ghost function Start(): Proc { Init(id, children, opening) }

    /** What has been taken from each peer and what is left make up the supply. */
    ghost predicate Accounted()
      reads this`path, queues
    {
      queues.Length == |supply| && forall x :: 0 <= x < |supply| ==> TakenFrom(path, x) + queues[x] == supply[x]
    }

    ghost predicate Valid()
      reads this, ledger, ledger.history, queues
    {
      Shape() && Accounted() && Follow(Start(), path, script) == At(State(), wire)
    }

    /** No queue the process is listening to holds a frame. */
    ghost predicate Starved()
      reads this, ledger, ledger.history, queues
      requires Shape()
    {
      forall x: nat :: x <= children && x != id && Listens(State(), x, script) ==> queues[x] == []
    }

    ghost predicate Settled(r: Outcome)
      reads this, ledger, ledger.history, queues
    {
      if r.Ok? || r.Refused? || r.AuditFailed? then Valid()
      else if r.Blocked? then Valid() && Starved()
      else
        var l := Follow(Start(), path, script);
        l.At? && Shaped(l.p) && l.p.clock >= 0 && Trips(l.p, tripped, r, script)
    }

    constructor (id: nat, children: nat, opening: int, script: seq<Order>, inbox: seq<seq<Frame>>)
      requires children >= 1 && id <= children && |inbox| == children + 1
      requires forall o :: o in script ==> ValidOrder(o, children)
      ensures Valid() && this.id == id && this.children == children && this.script == script && supply == inbox
      ensures State() == Init(id, children, opening) && path == []
    {
      this.id, this.children, this.opening, this.script := id, children, opening, script;
      clock, sender, stopped, doneCount, collected := 0, 0, false, 0, [];
      doneMask := seq(children + 1, _ => false);
      queues := new seq<Frame>[children + 1](x requires 0 <= x <= children => inbox[x]);
      supply := inbox;
      pc, path, wire := if id == PARENT then AwaitStarted(1) else Boot, [], [];
      var l := new Ledger(id, opening);
      ledger := l;
    }

    // ---------- clock and channels ----------

    method ClockSend() returns (ok: bool)
      modifies this`clock
      ensures ok == (old(clock) != 32767)
      ensures clock == if ok then old(clock) + 1 else old(clock)
    {
      if clock == INT16_MAX { return false; }
      clock := clock + 1;
      ok := true;
    }

    method ClockReceive(remote: int) returns (ok: bool)
      modifies this`clock
      ensures ok == !(remote < 0 || remote == 32767 || old(clock) == 32767)
      ensures clock == if ok then (if remote > old(clock) then remote else old(clock)) + 1 else old(clock)
    {
      if remote < 0 || remote == INT16_MAX || clock == INT16_MAX { return false; }
      if remote > clock { clock := remote; }
      clock := clock + 1;
      ok := true;
    }

    method WriteAll(m: Frame, first: nat, last: nat)
      requires first <= last
      modifies this`wire
      ensures wire == old(wire) + Spill(m, first, last, id)
    {
      var target := first;
      while target <= last
        invariant first <= target <= last + 1
        invariant wire + Spill(m, target, last, id) == old(wire) + Spill(m, first, last, id)
      {
        ghost var before, rest := wire, Spill(m, target + 1, last, id);
        ghost var piece := if target == id then [] else [(target, m)];
        if target != id { wire := wire + [(target, m)]; }
        assert before + [] == before && wire == before + piece;
        Regroup(before, piece, rest);
        target := target + 1;
      }
      assert wire + [] == wire;
    }

    method SendMulticast(kind: Kind, payload: Payload) returns (ok: bool)
      modifies this`clock, this`wire
      ensures ok == (old(clock) != 32767)
      ensures ok ==> clock == old(clock) + 1 && wire == old(wire) + Spill(Frame(kind, clock, payload), 0, children, id)
    {
      ok := ClockSend();
      if !ok { return; }
      WriteAll(Frame(kind, clock, payload), 0, children);
    }

    method Send(dst: nat, kind: Kind, payload: Payload) returns (r: Outcome)
      modifies this`clock, this`wire
      ensures r.Refused? <==> dst > children || dst == id
      ensures r.Overflow? <==> !(dst > children || dst == id) && old(clock) == 32767
      ensures r.Ok? || r.Refused? || r.Overflow?
      ensures r.Ok? ==> clock == old(clock) + 1 && wire == old(wire) + Spill(Frame(kind, clock, payload), dst, dst, id)
    {
      if dst > children || dst == id { return Refused; }
      var ok := ClockSend();
      if !ok { return Overflow; }
      WriteAll(Frame(kind, clock, payload), dst, dst);
      r := Ok;
    }

    /** Deliver the first frame of `from`. */
    method Take(from: nat) returns (ok: bool, m: Frame)
      requires from < queues.Length && queues[from] != []
      modifies this`clock, this`sender, queues
      ensures m == old(queues[from])[0] && queues[..] == old(queues[..])[from := old(queues[from])[1..]]
      ensures sender == from && ok == !ClockRefuses(old(clock), m.ts)
      ensures clock == if ok then Later(old(clock), m.ts) else old(clock)
    {
      m := queues[from][0];
      queues[from] := queues[from][1..];
      sender := from;
      ok := ClockReceive(m.ts);
    }

    // ---------- the path ----------

    /** Take the action `a`, whose frames have been written by now, onto the path. */
    ghost method Record(a: Action, p: Proc, before: Posts)
      requires Shape() && Lawful(p, a, script) && p.out.Quiet?
      requires Follow(Start(), path, script) == At(p, before)
      requires State() == Do(p, a, script).(out := Quiet) && wire == before + Spilled(Do(p, a, script))
      requires queues.Length == |supply|
      requires forall x :: 0 <= x < |supply| ==>
                 (TakenFrom(path, x) + if a.Recv? && a.from == x then [a.msg] else []) + queues[x] == supply[x]
      modifies this`path
      ensures Valid()
    {
      FollowComplete(Start(), path, script, p, before, a);
      path := path + Complete(p, a, script);
    }

    /** The same for an action that receives nothing. */
    ghost method RecordQuietly(a: Action, p: Proc, before: Posts)
      requires Shape() && Lawful(p, a, script) && p.out.Quiet? && !a.Recv?
      requires Follow(Start(), path, script) == At(p, before) && Accounted()
      requires State() == Do(p, a, script).(out := Quiet) && wire == before + Spilled(Do(p, a, script))
      modifies this`path
      ensures Valid()
    {
      forall x | 0 <= x < |supply| ensures TakenFrom(path, x) + [] == TakenFrom(path, x) { }
      Record(a, p, before);
    }

    /** The same for a frame taken off the front of a queue. */
    ghost method RecordDelivery(a: Action, p: Proc, before: Posts, queued: seq<seq<Frame>>)
      requires Shape() && Lawful(p, a, script) && p.out.Quiet? && a.Recv?
      requires Follow(Start(), path, script) == At(p, before)
      requires State() == Do(p, a, script).(out := Quiet) && wire == before + Spilled(Do(p, a, script))
      requires |queued| == |supply| == queues.Length && a.from < |queued| && queued[a.from] != []
      requires a.msg == queued[a.from][0] && queues[..] == queued[a.from := queued[a.from][1..]]
      requires forall x :: 0 <= x < |supply| ==> TakenFrom(path, x) + queued[x] == supply[x]
      modifies this`path
      ensures Valid()
    {
      forall x | 0 <= x < |supply|
        ensures (TakenFrom(path, x) + if a.from == x then [a.msg] else []) + queues[x] == supply[x]
      {
        assert queues[x] == queues[..][x];
        if x == a.from { HeadMoves(TakenFrom(path, x), queued[x]); }
        assert TakenFrom(path, x) + [] == TakenFrom(path, x);
      }
      Record(a, p, before);
    }

    // ---------- an account ----------

    /** The debit belongs to the outgoing frame: it is booked at the stamp that frame will get. */
    method Forward(m: Frame) returns (r: Outcome)
      requires Shape() && pc.Running? && sender <= children && m.kind.TRANSFER?
      requires !Rejected(State(), sender, m) && SourceSide(State(), sender, m.payload.order)
      modifies this`clock, this`wire, ledger`length, ledger`wireLength, ledger.history
      ensures r.LedgerFailed? ==> LedgerRefuses(old(State()), sender, m)
      ensures r.Ok? ==> !LedgerRefuses(old(State()), sender, m)
      ensures if r.Ok? then old(clock) != 32767 else r.Overflow? ==> old(clock) == 32767
      ensures r.Ok? || r.LedgerFailed? || r.Overflow?
      ensures r.Ok? ==>
                var q := Serve(old(State()), sender, m, 0);
                Shape() && State() == q.(out := Quiet) && wire == old(wire) + Spilled(q)
    {
      var o := m.payload.order;
      var sent := clock + 1;
      var ok := ledger.Debit(sent, o.amount);
      if !ok { return LedgerFailed; }
      r := Send(o.dst, TRANSFER, m.payload);
    }

    method Accept(m: Frame) returns (r: Outcome)
      requires Shape() && pc.Running? && sender <= children && m.kind.TRANSFER? && m.payload.Transfer?
      requires id != PARENT && ValidOrder(m.payload.order, children)
      requires !SourceSide(State(), sender, m.payload.order) && DestinationSide(State(), sender, m.payload.order)
      modifies this`clock, this`wire, ledger`length, ledger`wireLength, ledger.history
      ensures r.Crashed? <==> Rejected(old(State()), sender, m)
      ensures r.LedgerFailed? ==> !Rejected(old(State()), sender, m) && LedgerRefuses(old(State()), sender, m)
      ensures r.Ok? ==> !LedgerRefuses(old(State()), sender, m)
      ensures if r.Ok? then old(clock) != 32767 else r.Overflow? ==> old(clock) == 32767
      ensures r.Ok? || r.Crashed? || r.LedgerFailed? || r.Overflow?
      ensures r.Ok? ==>
                var q := Serve(old(State()), sender, m, 0);
                Shape() && State() == q.(out := Quiet) && wire == old(wire) + Spilled(q)
    {
      var o := m.payload.order;
      var ok := ledger.Credit(m.ts, clock, o.amount);
      if !ok { return if m.ts < 0 || m.ts >= clock then Crashed else LedgerFailed; }
      r := Send(PARENT, ACK, Empty);
    }

    method ProcessTransfer(m: Frame) returns (r: Outcome)
      requires Shape() && pc.Running? && sender <= children && m.kind.TRANSFER?
      modifies this`clock, this`wire, ledger`length, ledger`wireLength, ledger.history
      ensures !r.Crashed? <==>
                && m.payload.Transfer?
                && 1 <= m.payload.order.src <= children && 1 <= m.payload.order.dst <= children
                && m.payload.order.src != m.payload.order.dst && m.payload.order.amount >= 0
                && ((id == m.payload.order.src && sender == 0)
                    || (id == m.payload.order.dst && sender == m.payload.order.src && 0 <= m.ts < old(clock)))
      ensures Handled(r, old(State()), m, 0, old(wire))
    {
      if !m.payload.Transfer? { return Crashed; }
      var o := m.payload.order;
      if o.src < 1 || o.src > children || o.dst < 1 || o.dst > children || o.src == o.dst || o.amount < 0 {
        return Crashed;
      }
      if id == o.src && sender == PARENT {
        r := Forward(m);
      } else if id == o.dst && sender == o.src {
        r := Accept(m);
      } else {
        r := Crashed;
      }
    }

    /** What the switch over the message type leaves behind, given the state `q` with the
        clock already moved. */
    ghost predicate Handled(r: Outcome, q: Proc, m: Frame, size: nat, before: Posts)
      reads this, ledger, ledger.history
      requires Shaped(q) && q.pc.Running? && sender <= q.n && q.clock >= 0
    {
      && (r.Crashed? <==> Rejected(q, sender, m))
      && (r.LedgerFailed? ==> LedgerRefuses(q, sender, m))
      && (r.Overflow? ==> Answers(q, m) && q.clock == 32767)
      && (r.Ok? ==> !LedgerRefuses(q, sender, m) && !(Answers(q, m) && q.clock == 32767))
      && !r.Blocked? && !r.Refused? && !r.AuditFailed?
      && (r.Ok? ==>
            var q' := Serve(q, sender, m, size);
            Shape() && State() == q'.(out := Quiet) && wire == before + Spilled(q'))
    }

    /** STOP: bring the history up to date and announce DONE. */
    method TakeStop(m: Frame, doneSize: nat) returns (r: Outcome)
      requires Shape() && pc.Running? && sender <= children && m.kind.STOP?
      modifies this`clock, this`wire, this`stopped, ledger`length, ledger`wireLength, ledger.history
      ensures Handled(r, old(State()), m, doneSize, old(wire))
      ensures r.Crashed? <==> sender != 0 || old(stopped) || !m.payload.Empty?
      ensures r.LedgerFailed? <==> !r.Crashed? && !(0 <= old(clock) <= 254)
      ensures r.Ok? ==> wire == old(wire) + Spill(Frame(DONE, clock, Text(doneSize)), 0, children, id)
      ensures r.Ok? ==> stopped && clock == old(clock) + 1 && |ledger.Cells()| >= clock
    {
      if sender != PARENT || stopped || !m.payload.Empty? { return Crashed; }
      stopped := true;
      var ok := ledger.Extend(clock);
      if !ok { return LedgerFailed; }
      ok := SendMulticast(DONE, Text(doneSize));
      r := if ok then Ok else Overflow;
    }

    method Handle(m: Frame, doneSize: nat) returns (r: Outcome)
      requires Shape() && pc.Running? && sender <= children
      modifies this`clock, this`wire, this`stopped, this`doneMask, this`doneCount
      modifies ledger`length, ledger`wireLength, ledger.history
      ensures Handled(r, old(State()), m, doneSize, old(wire))
      ensures m.kind.DONE? ==> (r.Crashed? <==> sender == 0 || old(doneMask[sender]))
      ensures !m.kind.TRANSFER? && !m.kind.STOP? && !m.kind.DONE? ==> r.Crashed?
    {
      match m.kind {
        case TRANSFER =>
          r := ProcessTransfer(m);
        case STOP =>
          r := TakeStop(m, doneSize);
        case DONE =>
          if sender == PARENT || doneMask[sender] { return Crashed; }
          doneMask := doneMask[sender := true];
          doneCount := doneCount + 1;
          assert wire + [] == wire;
          r := Ok;
        case _ =>
          r := Crashed;
      }
    }

    /** A frame from any peer; which one is up to the network. */
    method AwaitAny() returns (r: Outcome, m: Frame)
      requires Shape()
      modifies this`clock, this`sender, queues
      ensures r.Blocked? ==> Unmoved(old(clock), old(sender), old(queues[..]))
      ensures r.Blocked? ==> forall x: nat :: x <= children && x != id ==> queues[x] == []
      ensures !r.Blocked? ==> Taken(r, m, old(clock), old(queues[..]))
      ensures r.Ok? || r.Blocked? || r.Overflow?
    {
      if x: nat :| x <= children && x != id && queues[x] != [] {
        var ok;
        ok, m := Take(x);
        r := if ok then Ok else Overflow;
      } else {
        r, m := Blocked, Frame(STARTED, 0, Empty);
      }
    }

    /** A frame from `peer` and nobody else; later frames of others wait in their queues. */
    method AwaitMessage(peer: nat) returns (r: Outcome, m: Frame)
      requires Shape() && peer <= children && peer != id
      modifies this`clock, this`sender, queues
      ensures r.Blocked? ==> Unmoved(old(clock), old(sender), old(queues[..])) && queues[peer] == []
      ensures !r.Blocked? ==> Taken(r, m, old(clock), old(queues[..])) && sender == peer
      ensures r.Ok? || r.Blocked? || r.Overflow?
    {
      if queues[peer] == [] { return Blocked, Frame(STARTED, 0, Empty); }
      var ok;
      ok, m := Take(peer);
      r := if ok then Ok else Overflow;
    }

    ghost predicate Unmoved(before: int, from: nat, queued: seq<seq<Frame>>)
      reads this, queues
    {
      clock == before && sender == from && queues[..] == queued
    }

    /** The first frame of the sender has been delivered. */
    ghost predicate Taken(r: Outcome, m: Frame, before: int, queued: seq<seq<Frame>>)
      reads this, queues
    {
      && sender <= children && sender != id && sender < |queued| && queued[sender] != [] && m == queued[sender][0]
      && queues[..] == queued[sender := queued[sender][1..]]
      && r == (if ClockRefuses(before, m.ts) then Overflow else Ok)
      && clock == (if r.Ok? then Later(before, m.ts) else before)
    }

    /** What a turn of the main loop does, seen from outside: nothing, or the reception of
        the first frame of some peer, or a failed check. */
    ghost predicate Turned(r: Outcome, a: Action, p: Proc, before: Posts, queued: seq<seq<Frame>>)
      reads this, ledger, ledger.history, queues
      requires Shaped(p) && p.clock >= 0
    {
      if r.Blocked? then Shape() && State() == p && wire == before && queues[..] == queued && Starved()
      else
        && a.Recv? && Allowed(p, a, script) && Trips(p, a, r, script) && !r.Refused? && !r.AuditFailed?
        && a.from < |queued| && queued[a.from] != [] && a.msg == queued[a.from][0]
        && queues[..] == queued[a.from := queued[a.from][1..]]
        && (r.Ok? ==>
              && Lawful(p, a, script) && Shape() && State() == Do(p, a, script).(out := Quiet)
              && wire == before + Spilled(Do(p, a, script)))
    }

    /** Receive one frame and act on it. */
    method TakeTurn(doneSize: nat) returns (r: Outcome, ghost a: Action)
      requires Shape() && Serving(State()) && doneSize < LINE
      modifies this`clock, this`wire, this`sender, this`stopped, this`doneMask, this`doneCount
      modifies queues, ledger`length, ledger`wireLength, ledger.history
      ensures Turned(r, a, old(State()), old(wire), old(queues[..]))
    {
      ghost var p, before := State(), wire;
      var m;
      r, m := AwaitAny();
      a := Recv(sender, m, doneSize);
      if !r.Ok? { return; }
      assert State() == Moved(p, m);
      r := Handle(m, doneSize);
    }

    /** One turn of the main loop of an account. */
    method Turn(doneSize: nat) returns (r: Outcome)
      requires Valid() && Serving(State()) && doneSize < LINE
      modifies this`clock, this`wire, this`sender, this`stopped, this`doneMask, this`doneCount, this`path, this`tripped
      modifies queues, ledger`length, ledger`wireLength, ledger.history
      ensures Settled(r) && !r.Refused?
      ensures r.Ok? ==> pc.Running? && Total(queues[..]) < Total(old(queues[..]))
    {
      ghost var p, before, queued := State(), wire, queues[..];
      ghost var a;
      r, a := TakeTurn(doneSize);
      tripped := a;
      if r.Ok? {
        RecordDelivery(a, p, before, queued);
        TotalDrops(queued, a.from);
      }
    }

    method MainLoop(doneSize: nat) returns (r: Outcome)
      requires Valid() && pc.Running? && doneSize < LINE
      modifies this`clock, this`wire, this`sender, this`stopped, this`doneMask, this`doneCount, this`path, this`tripped
      modifies queues, ledger`length, ledger`wireLength, ledger.history
      ensures Settled(r) && !r.Refused?
      ensures r.Ok? ==> pc.Running? && !Serving(State())
    {
      while !stopped || doneCount < children - 1
        invariant Valid() && pc.Running?
        decreases Total(queues[..])
      {
        r := Turn(doneSize);
        if !r.Ok? { return; }
      }
      r := Ok;
    }

    // ---------- barriers and phases ----------

    /** Move on without receiving or sending anything. */
    ghost method Pass(a: Action)
      requires Valid() && Allowed(State(), a, script) && (a.Skip? || a.PassStarted? || a.PassDone? || a.Close?)
      modifies this`pc, this`path
      ensures Valid() && pc == Do(old(State()), a, script).pc
    {
      ghost var p, before := State(), wire;
      pc := Do(p, a, script).pc;
      assert State() == Do(p, a, script).(out := Quiet);
      assert before + [] == before;
      RecordQuietly(a, p, before);
    }

    /** The place in the program where a frame of `kind` is expected from `peer`. */
    ghost predicate Expects(peer: nat, kind: Kind)
      reads this`pc
    {
      match pc
      case AwaitStarted(x) => kind.STARTED? && x == peer
      case AwaitAck(k) => kind.ACK? && k < |script| && script[k].dst == peer
      case AwaitDone(x) => kind.DONE? && x == peer
      case AwaitHistory(x) => kind.BALANCE_HISTORY? && x == peer
      case _ => false
    }

    /** The checks on an expected frame, with the clock already moved. */
    method Approve(kind: Kind, m: Frame) returns (r: Outcome)
      requires Shape() && sender <= children && Expects(sender, kind)
      modifies this`collected, this`pc
      ensures r.Crashed? <==>
                || m.kind != kind || (kind.ACK? && !m.payload.Empty?)
                || (kind.BALANCE_HISTORY? &&
                    !(m.payload.Balances? && m.payload.owner == sender && m.payload.cells != []))
      ensures r.LedgerFailed? <==> !r.Crashed? && kind.BALANCE_HISTORY? && |m.payload.cells| > 255
      ensures r.Crashed? <==> Rejected(old(State()), sender, m)
      ensures r.LedgerFailed? <==> !Rejected(old(State()), sender, m) && LedgerRefuses(old(State()), sender, m)
      ensures r.Ok? || r.Crashed? || r.LedgerFailed?
      ensures r.Ok? ==> pc == Past(old(pc)) && Shape()
      ensures r.Ok? ==> collected == old(collected) + if kind.BALANCE_HISTORY? then [m.payload.cells] else []
    {
      if m.kind != kind || (kind.ACK? && !m.payload.Empty?) { return Crashed; }
      if kind.BALANCE_HISTORY? {
        if !m.payload.Balances? || m.payload.owner != sender || m.payload.cells == [] { return Crashed; }
        if |m.payload.cells| > UINT8_MAX { return LedgerFailed; }
        collected := collected + [m.payload.cells];
      }
      pc := Past(pc);
      assert old(collected) + [] == old(collected);
      r := Ok;
    }

    /** The same, seen as the end of the reception `a` that began at `p`. */
    method Weigh(kind: Kind, m: Frame, ghost p: Proc, ghost a: Action) returns (r: Outcome)
      requires Shape() && sender <= children && Expects(sender, kind)
      requires Shaped(p) && p.clock >= 0 && p.n == children && p.out.Quiet? && p.pc == pc && State() == Moved(p, m)
      requires a == Recv(sender, m, 0) && Allowed(p, a, script) && !ClockRefuses(p.clock, m.ts)
      modifies this`collected, this`pc
      ensures r.Ok? || r.Crashed? || r.LedgerFailed?
      ensures Trips(p, a, r, script)
      ensures r.Ok? ==> Lawful(p, a, script) && Spilled(Do(p, a, script)) == []
      ensures r.Ok? ==> Shape() && State() == Do(p, a, script).(out := Quiet)
      ensures r.Ok? ==> pc == Past(old(pc)) && |collected| == old(|collected|) + if kind.BALANCE_HISTORY? then 1 else 0
    {
      r := Approve(kind, m);
      if r.Ok? { WaitedFor(p, a, script); }
      Judged(p, a, r, script);
    }

    /** Wait for a frame of `peer` and insist on its kind. */
    method TakeExpected(peer: nat, kind: Kind) returns (r: Outcome, ghost a: Action)
      requires Shape() && peer <= children && peer != id && Expects(peer, kind)
      modifies this`clock, this`sender, this`collected, this`pc, queues
      ensures Turned(r, a, old(State()), old(wire), old(queues[..])) && !r.AuditFailed?
      ensures r.Ok? ==> pc == Past(old(pc)) && |collected| == old(|collected|) + if kind.BALANCE_HISTORY? then 1 else 0
    {
      ghost var p, before := State(), wire;
      var m;
      r, m := AwaitMessage(peer);
      a := Recv(sender, m, 0);
      if !r.Ok? { return; }
      assert State() == Moved(p, m);
      r := Weigh(kind, m, p, a);
      assert before + [] == before;
    }

    method Expect(peer: nat, kind: Kind) returns (r: Outcome)
      requires Valid() && peer <= children && peer != id && Expects(peer, kind)
      modifies this`clock, this`sender, this`collected, this`pc, this`path, this`tripped, queues
      ensures Settled(r) && !r.Refused? && !r.AuditFailed?
      ensures r.Ok? ==> pc == Past(old(pc)) && |collected| == old(|collected|) + if kind.BALANCE_HISTORY? then 1 else 0
    {
      ghost var p, before, queued := State(), wire, queues[..];
      ghost var a;
      r, a := TakeExpected(peer, kind);
      tripped := a;
      if r.Ok? { RecordDelivery(a, p, before, queued); }
    }

    method WaitStarted() returns (r: Outcome)
      requires Valid() && pc == AwaitStarted(1)
      modifies this`clock, this`sender, this`collected, this`pc, this`path, this`tripped, queues
      ensures Settled(r) && !r.Refused? && !r.AuditFailed?
      ensures r.Ok? ==> |collected| == old(|collected|) && pc == if id == PARENT then Issue(0) else Running
    {
      for peer := 1 to children + 1
        invariant Valid() && pc == AwaitStarted(peer) && |collected| == old(|collected|)
      {
        if peer == id {
          Pass(Skip);
        } else {
          r := Expect(peer, STARTED);
          if !r.Ok? { return; }
        }
      }
      Pass(PassStarted);
      r := Ok;
    }

    /** Announce STARTED to everybody. */
    method Announce(size: nat) returns (r: Outcome)
      requires Valid() && pc.Boot? && size < LINE
      modifies this`clock, this`wire, this`pc, this`path, this`tripped
      ensures Settled(r) && (r.Ok? || r.Overflow?)
      ensures r.Ok? ==> pc == AwaitStarted(1)
      ensures r.Ok? ==> wire == old(wire) + Spill(Frame(STARTED, clock, Text(size)), 0, children, id)
    {
      ghost var p, before, a := State(), wire, Action.Start(size);
      tripped := a;
      var ok := SendMulticast(STARTED, Text(size));
      if !ok { return Overflow; }
      pc := AwaitStarted(1);
      RecordQuietly(a, p, before);
      r := Ok;
    }

    /** Bring the history up to date and send it to the parent. */
    method Hand() returns (r: Outcome)
      requires Shape() && pc.Running? && !Serving(State())
      modifies this`clock, this`wire, this`pc, ledger`length, ledger`wireLength, ledger.history
      ensures r.LedgerFailed? <==> CannotExtend(old(clock))
      ensures r.Overflow? ==> ClockStops(old(State()), BankProcess.Action.Report)
      ensures r.Ok? ==> Lawful(old(State()), BankProcess.Action.Report, script)
      ensures r.Ok? || r.LedgerFailed? || r.Overflow?
      ensures r.Ok? ==>
                var q := Do(old(State()), BankProcess.Action.Report, script);
                Shape() && State() == q.(out := Quiet) && wire == old(wire) + Spilled(q)
      ensures r.Ok? ==> clock == old(clock) + 1 && |ledger.Cells()| >= clock
      ensures r.Ok? ==> wire == old(wire) + [(PARENT, Frame(BALANCE_HISTORY, clock, Balances(id, ledger.Cells())))]
    {
      var ok := ledger.Extend(clock);
      if !ok { return LedgerFailed; }
      var l := ledger.history[..ledger.length];
      SpillOne(Frame(BALANCE_HISTORY, clock + 1, Balances(id, l)), PARENT, id);
      r := Send(PARENT, BALANCE_HISTORY, Balances(id, l));
      if r.Ok? { pc := Reported; }
    }

    method Report() returns (r: Outcome)
      requires Valid() && pc.Running? && !Serving(State())
      modifies this`clock, this`wire, this`pc, this`path, this`tripped, ledger`length, ledger`wireLength, ledger.history
      ensures Settled(r) && (r.Ok? || r.LedgerFailed? || r.Overflow?)
      ensures r.Ok? ==> pc.Reported?
      ensures r.Ok? ==> wire == old(wire) + [(PARENT, Frame(BALANCE_HISTORY, clock, Balances(id, ledger.Cells())))]
    {
      ghost var p, before := State(), wire;
      tripped := BankProcess.Action.Report;
      r := Hand();
      if r.Ok? { RecordQuietly(BankProcess.Action.Report, p, before); }
    }

    /** An account from start to exit, for any frames the network delivers. */
    method ChildRun(startedSize: nat, doneSize: nat) returns (r: Outcome)
      requires Valid() && id != PARENT && path == [] && pc.Boot? && startedSize < LINE && doneSize < LINE
      modifies this, queues, ledger`length, ledger`wireLength, ledger.history
      ensures Settled(r) && !r.Refused?
      ensures r.Ok? ==> pc.Reported? && |ledger.Cells()| == clock
      ensures r.Ok? ==>
                wire != []
                && wire[|wire| - 1] == (PARENT, Frame(BALANCE_HISTORY, clock, Balances(id, ledger.Cells())))
    {
      r := Announce(startedSize);
      if !r.Ok? { return; }
      r := WaitStarted();
      if !r.Ok? { return; }
      r := MainLoop(doneSize);
      if !r.Ok? { return; }
      r := Report();
      FollowReaches(Start(), path, script);
    }

    // ---------- the parent ----------

    /** The order to its source. */
    method Tell(o: Order) returns (ok: bool)
      requires Shape() && id == PARENT && pc.Issue? && pc.k < |script| && script[pc.k] == o && ValidOrder(o, children)
      modifies this`clock, this`wire, this`pc
      ensures if ok then Lawful(old(State()), Instruct, script) else ClockStops(old(State()), Instruct)
      ensures ok ==> pc == AwaitAck(old(pc).k) && Shape()
      ensures ok ==> State() == Do(old(State()), Instruct, script).(out := Quiet)
      ensures ok ==> wire == old(wire) + Spilled(Do(old(State()), Instruct, script))
    {
      var r := Send(o.src, TRANSFER, Payload.Transfer(o));
      ok := r.Ok?;
      if ok { pc := AwaitAck(pc.k); }
    }

    method Ask(o: Order) returns (r: Outcome)
      requires Valid() && id == PARENT && pc.Issue? && pc.k < |script| && script[pc.k] == o && ValidOrder(o, children)
      modifies this`clock, this`wire, this`pc, this`path, this`tripped
      ensures Settled(r) && (r.Ok? || r.Overflow?)
      ensures r.Ok? ==> pc == AwaitAck(old(pc).k)
    {
      ghost var p, before := State(), wire;
      tripped := Instruct;
      var ok := Tell(o);
      if !ok { return Overflow; }
      RecordQuietly(Instruct, p, before);
      r := Ok;
    }

    /** One transfer: tell the source, wait for the destination to acknowledge. */
    method Transfer(src: nat, dst: nat, amount: int) returns (r: Outcome)
      requires Valid()
      requires id == PARENT && ValidOrder(Order(src, dst, amount), children) ==>
                 pc.Issue? && pc.k < |script| && script[pc.k] == Order(src, dst, amount)
      modifies this`clock, this`sender, this`collected, this`wire, this`pc, this`path, this`tripped, queues
      ensures r.Refused? <==>
                !(id == 0 && 1 <= src <= children && 1 <= dst <= children && src != dst && amount >= 0)
      ensures Settled(r) && !r.AuditFailed?
      ensures r.Ok? ==> old(pc).Issue? && pc == Issue(old(pc).k + 1) && |collected| == old(|collected|)
    {
      if id != PARENT || src < 1 || src > children || dst < 1 || dst > children || src == dst || amount < 0 {
        return Refused;
      }
      r := Ask(Order(src, dst, amount));
      if !r.Ok? { return; }
      r := Expect(dst, ACK);
    }

    /** The transfers of the script one after the other. */
    method BankRobbery() returns (r: Outcome)
      requires Valid() && id == PARENT && pc == Issue(0)
      modifies this`clock, this`sender, this`collected, this`wire, this`pc, this`path, this`tripped, queues
      ensures Settled(r) && !r.Refused? && !r.AuditFailed?
      ensures r.Ok? ==> pc == Issue(|script|) && |collected| == old(|collected|)
    {
      for k := 0 to |script|
        invariant Valid() && pc == Issue(k) && |collected| == old(|collected|)
      {
        var o := script[k];
        assert o in script;
        r := Transfer(o.src, o.dst, o.amount);
        if !r.Ok? { return; }
      }
      r := Ok;
    }

    /** STOP to everybody. */
    method Halt() returns (ok: bool)
      requires Shape() && id == PARENT && pc == Issue(|script|)
      modifies this`clock, this`wire, this`pc
      ensures if ok then Lawful(old(State()), Stop, script) else ClockStops(old(State()), Stop)
      ensures ok ==> pc == AwaitDone(1) && Shape()
      ensures ok ==> State() == Do(old(State()), Stop, script).(out := Quiet)
      ensures ok ==> wire == old(wire) + Spilled(Do(old(State()), Stop, script))
    {
      ok := SendMulticast(STOP, Empty);
      if ok { pc := AwaitDone(1); }
    }

    method StopAll() returns (r: Outcome)
      requires Valid() && id == PARENT && pc == Issue(|script|)
      modifies this`clock, this`wire, this`pc, this`path, this`tripped
      ensures Settled(r) && (r.Ok? || r.Overflow?)
      ensures r.Ok? ==> pc == AwaitDone(1)
    {
      ghost var p, before := State(), wire;
      tripped := Stop;
      var ok := Halt();
      if !ok { return Overflow; }
      RecordQuietly(Stop, p, before);
      r := Ok;
    }

    method AwaitDones() returns (r: Outcome)
      requires Valid() && id == PARENT && pc == AwaitDone(1)
      modifies this`clock, this`sender, this`collected, this`pc, this`path, this`tripped, queues
      ensures Settled(r) && !r.Refused? && !r.AuditFailed?
      ensures r.Ok? ==> pc == AwaitHistory(1) && |collected| == old(|collected|)
    {
      for peer := 1 to children + 1
        invariant Valid() && pc == AwaitDone(peer) && |collected| == old(|collected|)
      {
        r := Expect(peer, DONE);
        if !r.Ok? { return; }
      }
      Pass(PassDone);
      r := Ok;
    }

    method AwaitHistories() returns (r: Outcome)
      requires Valid() && id == PARENT && pc == AwaitHistory(1)
      modifies this`clock, this`sender, this`collected, this`pc, this`path, this`tripped, queues
      ensures Settled(r) && !r.Refused? && !r.AuditFailed?
      ensures r.Ok? ==> pc.Exited? && |collected| == old(|collected|) + children
    {
      for peer := 1 to children + 1
        invariant Valid() && pc == AwaitHistory(peer) && |collected| == old(|collected|) + peer - 1
      {
        r := Expect(peer, BALANCE_HISTORY);
        if !r.Ok? { return; }
      }
      Pass(Close);
      r := Ok;
    }

    /** DONE from everybody, then every history; a history that comes early waits. */
    method Collect() returns (r: Outcome)
      requires Valid() && id == PARENT && pc == AwaitDone(1)
      modifies this`clock, this`sender, this`collected, this`pc, this`path, this`tripped, queues
      ensures Settled(r) && !r.Refused? && !r.AuditFailed?
      ensures r.Ok? ==> pc.Exited? && |collected| == old(|collected|) + children
    {
      r := AwaitDones();
      if !r.Ok? { return; }
      r := AwaitHistories();
    }

    /** The final check on everything collected. */
    method HistoryFinish(initial: seq<int>) returns (ok: bool)
      requires Storable(collected) && |initial| == |collected| + 1
      ensures ok == AuditOk(Table(collected), initial)
    {
      var all := new AllHistory(|collected|);
      for a := 0 to |collected|
        invariant all.Valid() && all.accounts == |collected|
        invariant forall x :: 0 <= x < a ==> all.Contents[x] == Table(collected)[x]
      {
        all.Store(a, a + 1, collected[a]);
      }
      assert all.Contents == Table(collected);
      ok := all.Finish(initial);
    }

    /** The parent from start to exit. */
    method ParentRun(initial: seq<int>) returns (r: Outcome)
      requires Valid() && id == PARENT && path == [] && pc == AwaitStarted(1) && collected == []
      requires |initial| == children + 1
      modifies this, queues
      ensures Settled(r) && !r.Refused?
      ensures r.Ok? || r.AuditFailed? ==>
                pc.Exited? && |collected| == children && (r.Ok? <==> AuditOk(Table(collected), initial))
    {
      r := WaitStarted();
      if !r.Ok? { return; }
      r := BankRobbery();
      if !r.Ok? { return; }
      r := StopAll();
      if !r.Ok? { return; }
      r := Collect();
      if !r.Ok? { return; }
      var ok := HistoryFinish(initial);
      r := if ok then Ok else AuditFailed;
    }
  }

  /** The place behind a wait. */
  function Past(pc: Pc): Pc {
    match pc
    case AwaitStarted(x) => AwaitStarted(x + 1)
    case AwaitAck(k) => Issue(k + 1)
    case AwaitDone(x) => AwaitDone(x + 1)
    case AwaitHistory(x) => AwaitHistory(x + 1)
    case _ => pc
  }

  /** What a reception outside the main loop changes. */
  lemma WaitedFor(p: Proc, a: Action, script: seq<Order>)
    requires Shaped(p) && p.clock >= 0 && forall o :: o in script ==> ValidOrder(o, p.n)
    requires Allowed(p, a, script) && a.Recv? && !p.pc.Running?
    requires !Rejected(Moved(p, a.msg), a.from, a.msg)
    ensures var q, received := Do(p, a, script), if p.pc.AwaitHistory? then [a.msg.payload.cells] else [];
            && q == q.(out := Quiet) == Moved(p, a.msg).(pc := Past(p.pc), collected := p.collected + received)
            && Spilled(q) == []
  {
    assert p.collected + [] == p.collected;
  }

  /** Outside the main loop: which check, if any, has stopped a reception. */
  lemma Judged(p: Proc, a: Action, r: Outcome, script: seq<Order>)
    requires Shaped(p) && p.clock >= 0 && forall o :: o in script ==> ValidOrder(o, p.n)
    requires Allowed(p, a, script) && a.Recv? && !p.pc.Running? && !r.Blocked?
    requires r.Overflow? <==> ClockRefuses(p.clock, a.msg.ts)
    requires r.Ok? || r.Crashed? ==> (r.Crashed? <==> Rejected(Moved(p, a.msg), a.from, a.msg))
    requires r.Ok? || r.LedgerFailed? ==> (r.LedgerFailed? <==> LedgerStops(p, a))
    ensures Trips(p, a, r, script) && (r.Ok? ==> Lawful(p, a, script))
  {
  }

  lemma HeadMoves(taken: seq<Frame>, queue: seq<Frame>)
    requires queue != []
    ensures (taken + [queue[0]]) + queue[1..] == taken + queue
  {
  }

  /** Frames in all queues together. */
  function Total(queues: seq<seq<Frame>>): nat {
    if queues == [] then 0 else Total(queues[..|queues| - 1]) + |queues[|queues| - 1]|
  }

  lemma {:induction false} TotalDrops(queues: seq<seq<Frame>>, x: nat)
    requires x < |queues| && queues[x] != []
    ensures Total(queues[x := queues[x][1..]]) == Total(queues) - 1
  {
    var last := |queues| - 1;
    if x == last {
      assert queues[x := queues[x][1..]][..last] == queues[..last];
    } else {
      assert queues[x := queues[x][1..]][..last] == queues[..last][x := queues[x][1..]];
      TotalDrops(queues[..last], x);
    }
  }
}
