/** The limits of the program: histories of 255 cells, 16-bit sums and 16-bit clocks.
    An action that meets one ends its process; the automaton by itself knows no limits. */
module BankLimits {
  import opened Wire
  import opened LedgerCells
  import opened BankProcess

  predicate CannotExtend(time: int) { !(0 <= time < UINT8_MAX) }

  predicate CannotDebit(l: Cells, time: int, amount: int)
    requires l != []
  {
    CannotExtend(time) || !Int16(Extended(l, time)[time].balance - amount)
  }

  predicate CannotCredit(l: Cells, sent: int, received: int, amount: int)
    requires l != [] && 0 <= sent < received
  {
    CannotExtend(received) || !Int16(Extended(l, received)[received].balance + amount)
    || exists t :: sent <= t < received && !Int16(Extended(l, received)[t].pending + amount)
  }

  /** What a history cannot represent: a time beyond 254, more than 255 cells, a sum
      beyond int16. */
  predicate LedgerRefuses(q: Proc, from: nat, m: Frame)
    requires Shaped(q) && from <= q.n && !Rejected(q, from, m)
  {
    match q.pc
    case AwaitHistory(_) => |m.payload.cells| > UINT8_MAX
    case Running =>
      (match m.kind
       case STOP => CannotExtend(q.clock)
       case TRANSFER =>
         var o := m.payload.order;
         if SourceSide(q, from, o) then CannotDebit(q.ledger, q.clock + 1, o.amount)
         else CannotCredit(q.ledger, m.ts, q.clock, o.amount)
       case _ => false)
    case _ => false
  }

  /** A history, or a received one, cannot hold what the action has to record. */
  predicate LedgerStops(p: Proc, a: Action)
    requires Shaped(p) && (a.Recv? ==> a.from <= p.n)
  {
    || (a.Report? && CannotExtend(p.clock))
    || (a.Recv? && !Rejected(Moved(p, a.msg), a.from, a.msg) && LedgerRefuses(Moved(p, a.msg), a.from, a.msg))
  }

  /** A clock is at its limit when it has to move, or a stamp is out of range. */
  predicate ClockStops(p: Proc, a: Action) {
    || (Stamps(a) && p.clock == INT16_MAX)
    || (a.Recv? && (ClockRefuses(p.clock, a.msg.ts) || (Answers(p, a.msg) && Moved(p, a.msg).clock == INT16_MAX)))
  }

  /** The action meets a limit, and the program ends. */
  predicate MeetsLimit(p: Proc, a: Action)
    requires Shaped(p) && (a.Recv? ==> a.from <= p.n)
  {
    LedgerStops(p, a) || ClockStops(p, a)
  }
}
