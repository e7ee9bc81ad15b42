/** One process of the mutual-exclusion protocol as an automaton: its variables,
    the actions it may take, and the effect of each action.  Class Node in
    MutexNode.dfy is proved to move only along paths of this automaton. */
module MutexProcess {
  import opened Wire

  datatype Pc = Boot | AwaitStarted | Idle | AwaitCs | InCs | AwaitDone | Exited | Failed

  /** The write loop of a send: one frame, the next target and the last target. */
  datatype Out = Quiet | Sending(frame: Msg, next: nat, last: nat)

  datatype Tally = Tally(request: nat, reply: nat, release: nat)

  datatype Stats = Stats(sent: Tally, received: Tally, entries: nat, waitTicks: int, longestWait: int)

  datatype Proc = Proc(
    id: nat, n: nat, pc: Pc, clock: int, rounds: nat,
    started: seq<bool>, done: seq<bool>, queued: seq<bool>, replied: seq<bool>, stamp: seq<int>,
    requesting: bool, inside: bool, out: Out, stats: Stats)

  datatype Action =
    | Start(size: nat) | LeaveStarted | Request | Enter | Exit | Finish(size: nat) | LeaveDone
    | Write | Recv(from: nat, msg: Msg)

  /** A line of the trace file: who, the own clock, and the iteration of the work loop.
      `ts` repeats the stamp of the request that is being granted. */
  datatype Event =
    | Requested(id: nat, clock: int, iteration: nat)
    | Entered(id: nat, clock: int, iteration: nat, ts: int)
    | Left(id: nat, clock: int, iteration: nat)

  /** Size of the line buffer an announcement is formatted into. */
  const LINE: nat := 256

  function Flags(n: nat): (s: seq<bool>)
    ensures |s| == n + 1 && forall i :: 0 <= i <= n ==> !s[i]
  {
    seq(n + 1, _ => false)
  }

  function Zeros(n: nat): (s: seq<int>)
    ensures |s| == n + 1 && forall i :: 0 <= i <= n ==> s[i] == 0
  {
    seq(n + 1, _ => 0)
  }

  const NO_TALLY := Tally(0, 0, 0)
  const NO_STATS := Stats(NO_TALLY, NO_TALLY, 0, 0, 0)

  function Init(id: nat, n: nat): Proc {
    Proc(id, n, if id == PARENT then AwaitStarted else Boot, 0, 0,
         Flags(n), Flags(n), Flags(n), Flags(n), Zeros(n), false, false, Quiet, NO_STATS)
  }

  /** Array bounds and the ids that index them. */
  ghost predicate Shaped(p: Proc) {
    && p.id <= p.n && p.n >= 1
    && |p.started| == |p.done| == |p.queued| == |p.replied| == |p.stamp| == p.n + 1
    && (p.out.Sending? ==> p.out.next <= p.out.last <= p.n)
  }

  function Rounds(p: Proc): nat { 5 * p.id }

  /** Every other child has set its flag. */
  predicate AllMarked(p: Proc, flags: seq<bool>)
    requires |flags| == p.n + 1
  {
    forall peer :: 1 <= peer <= p.n && peer != p.id ==> flags[peer]
  }

  /** The own request is confirmed by everyone and precedes every queued one. */
  predicate FirstAndConfirmed(p: Proc)
    requires Shaped(p)
  {
    forall peer :: 1 <= peer <= p.n && peer != p.id ==>
      p.replied[peer] && !(p.queued[peer] && Before(p.stamp[peer], peer, p.stamp[p.id], p.id))
  }

  /** The loop conditions under which the program calls dispatch. */
  predicate Waiting(p: Proc)
    requires Shaped(p)
  {
    match p.pc
    case AwaitStarted => !AllMarked(p, p.started)
    case AwaitCs => !FirstAndConfirmed(p)
    case AwaitDone => !AllMarked(p, p.done)
    case _ => false
  }

  predicate Allowed(p: Proc, a: Action)
    requires Shaped(p)
  {
    if p.out.Sending? then a.Write?
    else match a
      case Start(size) => p.pc.Boot? && size < LINE
      case LeaveStarted => p.pc.AwaitStarted? && AllMarked(p, p.started)
      case Request => p.pc.Idle? && p.rounds < Rounds(p)
      case Enter => p.pc.AwaitCs? && FirstAndConfirmed(p)
      case Exit => p.pc.InCs?
      case Finish(size) => p.pc.Idle? && p.rounds >= Rounds(p) && size < LINE
      case LeaveDone => p.pc.AwaitDone? && AllMarked(p, p.done)
      case Write => false
      case Recv(from, _) => from <= p.n && from != p.id && Waiting(p)
  }

  function Bump(t: Tally, kind: Kind): Tally {
    match kind
    case CS_REQUEST => t.(request := t.request + 1)
    case CS_REPLY => t.(reply := t.reply + 1)
    case CS_RELEASE => t.(release := t.release + 1)
    case _ => t
  }

  function CountEntry(s: Stats, elapsed: int): Stats {
    s.(entries := s.entries + 1, waitTicks := s.waitTicks + elapsed,
       longestWait := if elapsed > s.longestWait then elapsed else s.longestWait)
  }

  /** The process after a delivered frame has been counted and has moved the clock. */
  function Delivered(p: Proc, m: Msg): Proc {
    p.(clock := Later(p.clock, m.ts), stats := p.stats.(received := Bump(p.stats.received, m.kind)))
  }

  /** The checks of dispatch that end the program. */
  predicate Rejected(p: Proc, from: nat, m: Msg)
    requires Shaped(p) && from <= p.n
  {
    match m.kind
    case STARTED => false
    case DONE => p.queued[from]
    case CS_REQUEST => CsInvalid(p, from, m) || p.queued[from] || p.done[from]
    case CS_REPLY => CsInvalid(p, from, m) || !p.requesting
    case CS_RELEASE => CsInvalid(p, from, m) || !p.queued[from]
    case _ => true
  }

  predicate CsInvalid(p: Proc, from: nat, m: Msg) {
    from == PARENT || p.id == PARENT || m.size != 0
  }

  /** What the switch of dispatch does with a delivered frame. */
  function Effect(q: Proc, from: nat, m: Msg): (r: Proc)
    requires Shaped(q) && from <= q.n
    ensures Shaped(r) && r.id == q.id && r.n == q.n
  {
    if Rejected(q, from, m) then
      (if m.kind.DONE? then q.(done := q.done[from := true], pc := Failed) else q.(pc := Failed))
    else match m.kind
      case STARTED => q.(started := q.started[from := true])
      case DONE => q.(done := q.done[from := true])
      case CS_REQUEST =>
        q.(queued := q.queued[from := true], stamp := q.stamp[from := m.ts],
           clock := q.clock + 1, out := Sending(Msg(CS_REPLY, q.clock + 1, 0), from, from))
      case CS_REPLY => q.(replied := q.replied[from := true])
      case _ => q.(queued := q.queued[from := false])
  }

  function Dispatch(p: Proc, from: nat, m: Msg): (r: Proc)
    requires Shaped(p) && from <= p.n
    ensures Shaped(r) && r.id == p.id && r.n == p.n
  {
    Effect(Delivered(p, m), from, m)
  }

  /** Stamp a frame and start writing it to targets `first..n`. */
  function Broadcast(p: Proc, kind: Kind, size: nat, first: nat): Proc {
    p.(clock := p.clock + 1, out := Sending(Msg(kind, p.clock + 1, size), first, p.n))
  }

  /** One iteration of the write loop; the own id is skipped. */
  function WriteNext(p: Proc): Proc
    requires p.out.Sending?
  {
    var Sending(m, next, last) := p.out;
    p.(out := if next < last then Sending(m, next + 1, last) else Quiet,
       stats := if next == p.id then p.stats else p.stats.(sent := Bump(p.stats.sent, m.kind)))
  }

  function Do(p: Proc, a: Action): (q: Proc)
    requires Shaped(p) && Allowed(p, a)
    ensures Shaped(q) && q.id == p.id && q.n == p.n
  {
    match a
    case Start(size) => Broadcast(p, STARTED, size, 0).(pc := AwaitStarted)
    case LeaveStarted => p.(pc := if p.id == PARENT then AwaitDone else Idle)
    case Request =>
      Broadcast(p, CS_REQUEST, 0, 1).(
        pc := AwaitCs, requesting := true, replied := Flags(p.n),
        queued := p.queued[p.id := true], stamp := p.stamp[p.id := p.clock + 1])
    case Enter =>
      p.(pc := InCs, inside := true, stats := CountEntry(p.stats, p.clock - p.stamp[p.id]))
    case Exit =>
      Broadcast(p, CS_RELEASE, 0, 1).(
        pc := Idle, inside := false, requesting := false,
        queued := p.queued[p.id := false], rounds := p.rounds + 1)
    case Finish(size) => Broadcast(p, DONE, size, 0).(pc := AwaitDone)
    case LeaveDone => p.(pc := Exited)
    case Write => WriteNext(p)
    case Recv(from, m) => Dispatch(p, from, m)
  }

  /** The lines an action adds to the trace: a request is traced with its stamp, entry and
      exit with the clock they find. */
  function NewEvents(p: Proc, a: Action): seq<Event>
    requires Shaped(p)
  {
    match a
    case Request => [Requested(p.id, p.clock + 1, p.rounds + 1)]
    case Enter => [Entered(p.id, p.clock, p.rounds + 1, p.stamp[p.id])]
    case Exit => [Left(p.id, p.clock, p.rounds + 1)]
    case _ => []
  }

  /** The int16 checks of the clock that an action runs into. */
  predicate Overflows(p: Proc, a: Action)
    requires Shaped(p) && Allowed(p, a)
  {
    match a
    case Recv(_, m) =>
      m.ts < 0 || m.ts == INT16_MAX || p.clock == INT16_MAX
      || (m.kind.CS_REQUEST? && !Rejected(p, a.from, m) && Later(p.clock, m.ts) == INT16_MAX)
    case _ => (a.Start? || a.Request? || a.Exit? || a.Finish?) && p.clock == INT16_MAX
  }
}
