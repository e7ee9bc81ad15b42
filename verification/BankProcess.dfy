/** One process of the bank, parent or account, as an automaton. */
module BankProcess {
  import opened Wire
  import opened LedgerCells

  /** An instruction to move money. */
  datatype Order = Order(src: nat, dst: nat, amount: int)

  /** What follows the header of a frame. */
  datatype Payload = Empty | Text(size: nat) | Transfer(order: Order) | Balances(owner: nat, cells: Cells)

  datatype Frame = Frame(kind: Kind, ts: int, payload: Payload)

  /** Waiting loops carry the peer they are at, the script the index of the order. */
  datatype Pc =
    | Boot | AwaitStarted(peer: nat) | Running | Reported
    | Issue(k: nat) | AwaitAck(k: nat) | AwaitDone(peer: nat) | AwaitHistory(peer: nat) | Exited
    | Failed

  datatype Out = Quiet | Sending(frame: Frame, next: nat, last: nat)

  datatype Proc = Proc(
    id: nat, n: nat, pc: Pc, clock: int, out: Out,
    ledger: Cells, stopped: bool, doneMask: seq<bool>, doneCount: nat, collected: seq<Cells>)

  datatype Action =
    | Start(size: nat) | Skip | PassStarted | Report
    | Instruct | Stop | PassDone | Close
    | Write | Recv(from: nat, msg: Frame, size: nat)

  /** Size of the buffer a status line is formatted into. */
  const LINE: nat := 256

  predicate ValidOrder(o: Order, n: nat) {
    1 <= o.src <= n && 1 <= o.dst <= n && o.src != o.dst && o.amount >= 0
  }

  function Init(id: nat, n: nat, opening: int): Proc {
    Proc(id, n, if id == PARENT then AwaitStarted(1) else Boot, 0, Quiet,
         Opened(opening), false, seq(n + 1, _ => false), 0, [])
  }

  ghost predicate Shaped(p: Proc) {
    && p.n >= 1 && p.id <= p.n && |p.doneMask| == p.n + 1 && p.ledger != []
    && (p.out.Sending? ==> p.out.next <= p.out.last <= p.n)
    && (p.pc.AwaitStarted? || p.pc.AwaitDone? || p.pc.AwaitHistory? ==> 1 <= p.pc.peer <= p.n + 1)
    && (p.id == PARENT ==> !p.pc.Boot? && !p.pc.Running? && !p.pc.Reported?)
    && (p.id != PARENT ==> p.pc.Boot? || p.pc.AwaitStarted? || p.pc.Running? || p.pc.Reported? || p.pc.Failed?)
  }

  /** An account keeps going until it has STOP and everybody's DONE. */
  predicate Serving(p: Proc) {
    p.pc.Running? && (!p.stopped || p.doneCount < p.n - 1)
  }

  /** The sender a process is prepared to hear from; an account in its main loop hears
      from anyone. */
  predicate Listens(p: Proc, from: nat, script: seq<Order>) {
    match p.pc
    case AwaitStarted(peer) => peer <= p.n && peer != p.id && from == peer
    case Running => Serving(p)
    case AwaitAck(k) => k < |script| && from == script[k].dst
    case AwaitDone(peer) => peer <= p.n && from == peer
    case AwaitHistory(peer) => peer <= p.n && from == peer
    case _ => false
  }

  predicate Allowed(p: Proc, a: Action, script: seq<Order>)
    requires Shaped(p)
  {
    if p.out.Sending? then a.Write?
    else match a
      case Start(size) => p.pc.Boot? && size < LINE
      case Skip => p.pc == AwaitStarted(p.id)
      case PassStarted => p.pc == AwaitStarted(p.n + 1)
      case Report => p.pc.Running? && !Serving(p)
      case Instruct => p.pc.Issue? && p.pc.k < |script|
      case Stop => p.pc.Issue? && p.pc.k >= |script|
      case PassDone => p.pc == AwaitDone(p.n + 1)
      case Close => p.pc == AwaitHistory(p.n + 1)
      case Write => false
      case Recv(from, _, size) => from <= p.n && from != p.id && size < LINE && Listens(p, from, script)
  }

  /** The checks that end the program when a frame arrives; `q` has the clock moved. */
  predicate Rejected(q: Proc, from: nat, m: Frame)
    requires Shaped(q) && from <= q.n
  {
    match q.pc
    case AwaitStarted(_) => !m.kind.STARTED?
    case AwaitAck(_) => !m.kind.ACK? || !m.payload.Empty?
    case AwaitDone(_) => !m.kind.DONE?
    case AwaitHistory(peer) =>
      !m.kind.BALANCE_HISTORY? || !m.payload.Balances? || m.payload.owner != peer || m.payload.cells == []
    case _ =>
      match m.kind
      case TRANSFER =>
        !m.payload.Transfer? || !ValidOrder(m.payload.order, q.n)
        || !(SourceSide(q, from, m.payload.order) || DestinationSide(q, from, m.payload.order))
        || (!SourceSide(q, from, m.payload.order) && !(0 <= m.ts < q.clock))
      case STOP => from != PARENT || q.stopped || !m.payload.Empty?
      case DONE => from == PARENT || q.doneMask[from]
      case _ => true
  }

  predicate SourceSide(q: Proc, from: nat, o: Order) { q.id == o.src && from == PARENT }

  predicate DestinationSide(q: Proc, from: nat, o: Order) { q.id == o.dst && from == o.src }

  /** The receiver with its clock moved. */
  function Moved(p: Proc, m: Frame): Proc { p.(clock := Later(p.clock, m.ts)) }

  /** Whether hearing this makes an account answer. */
  predicate Answers(p: Proc, m: Frame) { p.pc.Running? && (m.kind.TRANSFER? || m.kind.STOP?) }

  /** The actions that stamp a frame of their own accord. */
  predicate Stamps(a: Action) { a.Start? || a.Report? || a.Instruct? || a.Stop? }

  /** Stamp a frame and start writing it to first..last. */
  function Broadcast(p: Proc, kind: Kind, payload: Payload, first: nat, last: nat): Proc {
    p.(clock := p.clock + 1, out := Sending(Frame(kind, p.clock + 1, payload), first, last))
  }

  /** The main loop of an account; `size` is the length of the DONE text. */
  function Serve(q: Proc, from: nat, m: Frame, size: nat): (r: Proc)
    requires Shaped(q) && from <= q.n && q.clock >= 0 && !Rejected(q, from, m) && q.pc.Running?
    ensures Shaped(r) && r.id == q.id && r.n == q.n && r.clock >= q.clock
  {
    if m.kind.TRANSFER? then
      var o := m.payload.order;
      if SourceSide(q, from, o) then
        Broadcast(q, TRANSFER, m.payload, o.dst, o.dst).(ledger := Debited(q.ledger, q.clock + 1, o.amount))
      else
        Broadcast(q, ACK, Empty, PARENT, PARENT).(ledger := Credited(q.ledger, m.ts, q.clock, o.amount))
    else if m.kind.STOP? then
      Broadcast(q, DONE, Text(size), 0, q.n).(stopped := true, ledger := Extended(q.ledger, q.clock))
    else q.(doneMask := q.doneMask[from := true], doneCount := q.doneCount + 1)
  }

  function Receive(p: Proc, from: nat, m: Frame, size: nat, script: seq<Order>): (r: Proc)
    requires Shaped(p) && from <= p.n && p.clock >= 0 && Allowed(p, Recv(from, m, size), script)
    ensures Shaped(r) && r.id == p.id && r.n == p.n && r.clock >= p.clock
  {
    var q := Moved(p, m);
    if Rejected(q, from, m) then q.(pc := Failed)
    else if q.pc.Running? then Serve(q, from, m, size)
    else match q.pc
      case AwaitStarted(peer) => q.(pc := AwaitStarted(peer + 1))
      case AwaitAck(k) => q.(pc := Issue(k + 1))
      case AwaitDone(peer) => q.(pc := AwaitDone(peer + 1))
      case AwaitHistory(peer) =>
        q.(pc := AwaitHistory(peer + 1), collected := q.collected + [m.payload.cells])
      case _ => q
  }

  function WriteNext(p: Proc): Proc
    requires p.out.Sending?
  {
    var Sending(m, next, last) := p.out;
    p.(out := if next < last then Sending(m, next + 1, last) else Quiet)
  }

  function Do(p: Proc, a: Action, script: seq<Order>): (q: Proc)
    requires Shaped(p) && p.clock >= 0 && Allowed(p, a, script)
    requires forall o :: o in script ==> ValidOrder(o, p.n)
    ensures Shaped(q) && q.id == p.id && q.n == p.n && q.clock >= p.clock
  {
    match a
    case Start(size) => Broadcast(p, STARTED, Text(size), 0, p.n).(pc := AwaitStarted(1))
    case Skip => p.(pc := AwaitStarted(p.id + 1))
    case PassStarted => p.(pc := if p.id == PARENT then Issue(0) else Running)
    case Report =>
      var l := Extended(p.ledger, p.clock);
      Broadcast(p, BALANCE_HISTORY, Balances(p.id, l), PARENT, PARENT).(ledger := l, pc := Reported)
    case Instruct =>
      var o := script[p.pc.k];
      assert o in script && ValidOrder(o, p.n);
      Broadcast(p, TRANSFER, Transfer(o), o.src, o.src).(pc := AwaitAck(p.pc.k))
    case Stop => Broadcast(p, STOP, Empty, 0, p.n).(pc := AwaitDone(1))
    case PassDone => p.(pc := AwaitHistory(1))
    case Close => p.(pc := Exited)
    case Write => WriteNext(p)
    case Recv(from, m, size) => Receive(p, from, m, size, script)
  }
}
