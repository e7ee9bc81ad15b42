/** The ledgers of a run agree with its event log cell by cell, and the final check
    accepts what the parent has collected. */
module BankBooks {
  import opened Wire
  import opened Sums
  import opened LedgerCells
  import opened Audit
  import opened AuditMeaning
  import opened BankProcess
  import opened BankSystem
  import opened BankInvariant
  import opened BankSteps
  import opened BankSafety
  import opened BankTimes
  import opened BankLog
  import opened BankPath
  import opened BankReports
  import opened BankConservation

  /** What a log line means for account `i`. */
  function EntriesOf(l: Line, i: nat): seq<Entry> {
    match l
    case Gone(o, time) => if o.src == i then [Debit(time, o.amount)] else []
    case Arrived(o, sent, time) => if o.dst == i then [Credit(sent, time, o.amount)] else []
  }

  function BookOf(log: seq<Line>, i: nat): seq<Entry> {
    if log == [] then [] else BookOf(log[..|log| - 1], i) + EntriesOf(log[|log| - 1], i)
  }

  lemma BookNext(log: seq<Line>, l: Line, i: nat)
    ensures BookOf(log + [l], i) == BookOf(log, i) + EntriesOf(l, i)
  {
    assert (log + [l])[..|log|] == log;
  }

  lemma BooksNext(log: seq<Line>, lines: seq<Line>, i: nat)
    requires |lines| <= 1
    ensures BookOf(log + lines, i) == BookOf(log, i) + (if lines == [] then [] else EntriesOf(lines[0], i))
  {
    if lines == [] {
      assert log + lines == log;
    } else {
      assert lines == [lines[0]];
      BookNext(log, lines[0], i);
    }
  }

  ghost predicate BooksAgree(g: Global)
    requires Formed(g)
  {
    forall i: nat :: 1 <= i <= g.n ==> Exact(g.procs[i].ledger, g.opening[i], BookOf(g.log, i))
  }

  /** The acting account writes down what it logs. */
  lemma ActorAgrees(p: Proc, a: Action, script: seq<Order>, opening: int, book: seq<Entry>)
    requires Ready(p, script) && p.id != PARENT && ChildInv(p, opening) && Allowed(p, a, script)
    requires a.Recv? ==> !Rejected(Moved(p, a.msg), a.from, a.msg)
    requires Exact(p.ledger, opening, book)
    ensures |NewLines(p, a)| <= 1
    ensures Exact(Do(p, a, script).ledger, opening,
                  book + (if NewLines(p, a) == [] then [] else EntriesOf(NewLines(p, a)[0], p.id)))
  {
    assert book + [] == book;
    if a.Recv? && p.pc.Running? && a.msg.kind.TRANSFER? {
      var q, o := Moved(p, a.msg), a.msg.payload.order;
      if SourceSide(q, a.from, o) {
        DebitExact(p.ledger, q.clock + 1, o.amount, opening, book);
      } else {
        CreditExact(p.ledger, a.msg.ts, q.clock, o.amount, opening, book);
      }
    } else if a.Recv? && p.pc.Running? && a.msg.kind.STOP? {
      ExtendedExact(p.ledger, Moved(p, a.msg).clock, opening, book);
    } else if a.Report? {
      ExtendedExact(p.ledger, p.clock, opening, book);
    }
  }

  /** What one account logs is no business of another's. */
  lemma OthersLines(p: Proc, a: Action, script: seq<Order>, i: nat)
    requires Ready(p, script) && Allowed(p, a, script) && i != p.id && i >= 1
    requires a.Recv? ==> !Rejected(Moved(p, a.msg), a.from, a.msg)
    ensures |NewLines(p, a)| <= 1 && (NewLines(p, a) != [] ==> EntriesOf(NewLines(p, a)[0], i) == [])
  {
  }

  lemma StepKeepsBook(g: Global, tk: Token, s: Step, i: nat)
    requires Inv(g, tk) && Enabled(g, s) && BooksAgree(g) && 1 <= i <= g.n
    ensures Exact(Apply(g, s).procs[i].ledger, g.opening[i], BookOf(Apply(g, s).log, i))
  {
    var p, book := g.procs[s.k], BookOf(g.log, i);
    if s.a.Recv? { Accepted(g, tk, s); }
    assert Exact(g.procs[i].ledger, g.opening[i], book);
    if i == s.k {
      assert ChildInv(p, g.opening[i]);
      ActorAgrees(p, s.a, g.script, g.opening[i], book);
    } else {
      OthersLines(p, s.a, g.script, i);
      assert book + [] == book;
    }
    BooksNext(g.log, NewLines(p, s.a), i);
  }

  lemma InitAgrees(n: nat, script: seq<Order>, opening: seq<int>)
    requires n >= 1 && ValidScript(n, script) && |opening| == n + 1
    ensures Formed(Initial(n, script, opening)) && BooksAgree(Initial(n, script, opening))
  {
    var g := Initial(n, script, opening);
    assert Inv(g, None) by { InitInv(n, script, opening); }
    forall i: nat | 1 <= i <= n ensures Exact(g.procs[i].ledger, opening[i], BookOf(g.log, i)) {
      OpenedExact(opening[i]);
    }
  }

  /** In every state of every run each cell of each ledger is what the log says: the
      opening balance, less what has left, plus what has arrived, and pending what had
      been sent but not received. */
  lemma {:induction false} BooksAlwaysAgree(
      n: nat, script: seq<Order>, opening: seq<int>, states: seq<Global>, run: seq<Step>, x: nat)
    requires Behaviour(n, script, opening, states, run) && x <= |run|
    ensures Formed(states[x]) && BooksAgree(states[x]) && states[x].n == n && states[x].opening == opening
  {
    if x == 0 {
      InitAgrees(n, script, opening);
    } else {
      BooksAlwaysAgree(n, script, opening, states, run, x - 1);
      var tk := InvAlways(n, script, opening, states, run, x - 1);
      assert StepAt(states, run, x - 1);
      forall i: nat | 1 <= i <= n
        ensures Exact(states[x].procs[i].ledger, opening[i], BookOf(states[x].log, i))
      {
        StepKeepsBook(states[x - 1], tk, run[x - 1], i);
      }
    }
  }

  // ---------- the end of the run ----------

  /** The parent has every history. */
  predicate Collected(p: Proc) {
    p.pc.Exited? || p.pc == AwaitHistory(p.n + 1)
  }

  predicate HasCollected(g: Global) { g.procs != [] && Collected(g.procs[0]) }

  lemma CollectedLedgers(g: Global, tk: Token, i: nat)
    requires Inv(g, tk) && Collected(g.procs[0]) && 1 <= i <= g.n
    ensures |g.procs[0].collected| == g.n && g.procs[0].collected[i - 1] == g.procs[i].ledger
    ensures g.procs[i].pc.Reported? && tk.None?
  {
    assert PairAt(g, tk, i, 0);
  }

  lemma {:induction false} NoFlight(f: seq<Frame>, t: nat)
    requires forall m :: m in f ==> !MovesMoney(m)
    ensures Flight(f, t) == 0
  {
    if f != [] {
      assert f[0] in f;
      NoFlight(f[1..], t);
    }
  }

  lemma SettledHolding(g: Global, i: nat, t: nat)
    requires Inv(g, None) && 1 <= i <= g.n
    ensures Holding(g, i, t) == Worth(g.procs[i].ledger, t)
  {
    forall j: nat | 1 <= j <= g.n && j != i ensures Flight(Link(g, i, j), t) == 0 {
      NoMoney(g, None, i, j);
      NoFlight(Link(g, i, j), t);
    }
    SumZero(Flights(g, i, t));
  }

  lemma {:induction false} TotalsMatch(all: seq<History>, holdings: seq<int>, initial: seq<int>, t: nat, k: nat)
    requires NoneEmpty(all) && |holdings| == |initial| == |all| + 1 && k <= |all|
    requires holdings[0] == 0 && initial[0] == 0
    requires forall a :: 0 <= a < |all| ==> holdings[a + 1] == Worth(all[a].cells, t)
    ensures WorthTotal(all, t, k) == Sum(holdings[..k + 1])
    ensures OpeningTotal(initial, k) == Sum(initial[..k + 1])
  {
    if k == 0 {
      assert holdings[..1] == [0] && initial[..1] == [0];
    } else {
      TotalsMatch(all, holdings, initial, t, k - 1);
      assert holdings[..k + 1] == holdings[..k] + [holdings[k]];
      assert initial[..k + 1] == initial[..k] + [initial[k]];
      SumAppend(holdings[..k], holdings[k]);
      SumAppend(initial[..k], initial[k]);
    }
  }

  lemma {:induction false} OpeningIgnoresParent(initial: seq<int>, k: nat)
    requires k < |initial|
    ensures OpeningTotal(initial[0 := 0], k) == OpeningTotal(initial, k)
  {
    if k > 0 { OpeningIgnoresParent(initial, k - 1); }
  }

  /** What the parent has collected is what the check demands. */
  lemma CollectedIsSound(g: Global, tk: Token)
    requires Inv(g, tk) && Collected(g.procs[0]) && Conserved(g) && |g.procs[0].collected| == g.n
    ensures SoundHistories(Table(g.procs[0].collected), g.opening)
  {
    var all := Table(g.procs[0].collected);
    assert tk.None? by { CollectedLedgers(g, tk, 1); }
    forall a | 0 <= a < g.n
      ensures all[a].cells == g.procs[a + 1].ledger && ChildInv(g.procs[a + 1], g.opening[a + 1])
      ensures OpensAs(all[a], a, g.opening) && StampedCells(all[a].cells)
    {
      CollectedLedgers(g, tk, a + 1);
    }
    forall t: nat ensures WorthTotal(all, t, g.n) == OpeningTotal(g.opening, g.n) {
      WorthIsHoldings(g, all, t);
    }
  }

  lemma HoldingsAre(g: Global, all: seq<History>, t: nat)
    requires Inv(g, None) && |all| == g.n && NoneEmpty(all)
    requires forall a :: 0 <= a < g.n ==> all[a].cells == g.procs[a + 1].ledger
    ensures |Holdings(g, t)| == g.n + 1 && Holdings(g, t)[0] == 0
    ensures forall a :: 0 <= a < g.n ==> Holdings(g, t)[a + 1] == Worth(all[a].cells, t)
  {
    forall a | 0 <= a < g.n ensures Holdings(g, t)[a + 1] == Worth(all[a].cells, t) { SettledHolding(g, a + 1, t); }
  }

  lemma TotalsKept(all: seq<History>, holdings: seq<int>, initial: seq<int>, t: nat)
    requires NoneEmpty(all) && |holdings| == |initial| == |all| + 1 && holdings[0] == 0
    requires forall a :: 0 <= a < |all| ==> holdings[a + 1] == Worth(all[a].cells, t)
    requires Sum(holdings) == Sum(initial[0 := 0])
    ensures WorthTotal(all, t, |all|) == OpeningTotal(initial, |all|)
  {
    TotalsMatch(all, holdings, initial[0 := 0], t, |all|);
    OpeningIgnoresParent(initial, |all|);
    assert holdings[..|all| + 1] == holdings && initial[0 := 0][..|all| + 1] == initial[0 := 0];
  }

  lemma WorthIsHoldings(g: Global, all: seq<History>, t: nat)
    requires Inv(g, None) && Conserved(g) && |all| == g.n && NoneEmpty(all)
    requires forall a :: 0 <= a < g.n ==> all[a].cells == g.procs[a + 1].ledger
    ensures WorthTotal(all, t, g.n) == OpeningTotal(g.opening, g.n)
  {
    HoldingsAre(g, all, t);
    TotalsKept(all, Holdings(g, t), g.opening, t);
  }

  /** A completed run is never rejected: the final check accepts the collected histories. */
  lemma CompletedRunPasses(
      n: nat, script: seq<Order>, opening: seq<int>, states: seq<Global>, run: seq<Step>, x: nat)
    requires Behaviour(n, script, opening, states, run) && x <= |run| && HasCollected(states[x])
    ensures Formed(states[x]) && states[x].n == n && |states[x].procs[0].collected| == n
    ensures AuditOk(Table(states[x].procs[0].collected), opening)
  {
    Conservation(n, script, opening, states, run, x);
    var tk := InvAlways(n, script, opening, states, run, x);
    CollectedLedgers(states[x], tk, 1);
    CollectedIsSound(states[x], tk);
    Meaning(Table(states[x].procs[0].collected), opening);
  }

  lemma PaddedExact(l: Cells, length: nat, opening: int, book: seq<Entry>, t: nat)
    requires Exact(l, opening, book) && t < |Padded(l, length)|
    ensures ExactAt(Padded(l, length)[t], opening, book, t)
  {
    if t >= |l| {
      assert ExactAt(l[|l| - 1], opening, book, |l| - 1);
      OracleSettled(opening, book, |l|, t);
      OracleSettled(opening, book, |l|, |l| - 1);
    } else {
      assert ExactAt(l[t], opening, book, t);
    }
  }

  lemma CollectedExact(g: Global, tk: Token, a: nat)
    requires Inv(g, tk) && HasCollected(g) && BooksAgree(g) && a < g.n
    ensures a < |g.procs[0].collected|
    ensures Exact(g.procs[0].collected[a], g.opening[a + 1], BookOf(g.log, a + 1))
  {
    CollectedLedgers(g, tk, a + 1);
    assert Exact(g.procs[a + 1].ledger, g.opening[a + 1], BookOf(g.log, a + 1));
  }

  /** Every cell of the padded table agrees with the books of its account. */
  ghost predicate TableAgrees(all: seq<History>, opening: seq<int>, log: seq<Line>)
    requires |opening| == |all| + 1 && AuditOk(all, opening)
  {
    PadLevels(all);
    forall a: nat, t: nat :: a < |all| && t < MaxLength(all) ==>
      ExactAt(PadAll(all)[a].cells[t], opening[a + 1], BookOf(log, a + 1), t)
  }

  lemma TableIsExact(all: seq<History>, opening: seq<int>, log: seq<Line>)
    requires |opening| == |all| + 1 && AuditOk(all, opening)
    requires forall a: nat :: a < |all| ==> Exact(all[a].cells, opening[a + 1], BookOf(log, a + 1))
    ensures TableAgrees(all, opening, log)
  {
    PadLevels(all);
    forall a: nat, t: nat | a < |all| && t < MaxLength(all)
      ensures ExactAt(PadAll(all)[a].cells[t], opening[a + 1], BookOf(log, a + 1), t)
    {
      PaddedExact(all[a].cells, MaxLength(all), opening[a + 1], BookOf(log, a + 1), t);
    }
  }

  /** Row `a` of the table is as long as the clock of its account says, and the table as
      long as the latest of them. */
  ghost predicate FullLength(g: Global)
    requires Formed(g)
  {
    var all := Table(g.procs[0].collected);
    && |all| == g.n
    && (forall a: nat :: a < g.n ==> |all[a].cells| == g.procs[a + 1].clock <= MaxLength(all))
    && exists a: nat :: a < g.n && |all[a].cells| == MaxLength(all)
  }

  lemma CollectedInFull(g: Global, tk: Token)
    requires Inv(g, tk) && AllInStep(g) && Collected(g.procs[0])
    ensures FullLength(g)
  {
    var all := Table(g.procs[0].collected);
    CollectedLedgers(g, tk, 1);
    forall a: nat | a < g.n ensures |all[a].cells| == g.procs[a + 1].clock {
      CollectedLedgers(g, tk, a + 1);
      assert Reaches(g.procs[a + 1]);
    }
    MaxLengthBounds(all);
  }

  /** Every history the parent has collected has one cell for each time from 0 to the clock
      of its account at the report, and the table is as long as the longest of them. */
  lemma TableInFull(
      n: nat, script: seq<Order>, opening: seq<int>, states: seq<Global>, run: seq<Step>, t: nat, x: nat)
    requires Behaviour(n, script, opening, states, run) && t < x <= |run| && HasCollected(states[x])
    requires run[t].a.Report?
    ensures Formed(states[t]) && Formed(states[x]) && states[t].n == states[x].n == n && 1 <= run[t].k <= n
    ensures |states[x].procs[0].collected| == n
    ensures |states[x].procs[0].collected[run[t].k - 1]| == states[t].procs[run[t].k].clock + 1
    ensures FullLength(states[x])
  {
    var tk := InStepAlways(n, script, opening, states, run, x);
    CollectedInFull(states[x], tk);
    ReportedInFull(n, script, opening, states, run, t, x);
    CollectedLedgers(states[x], tk, run[t].k);
  }

  /** Every cell of the table that is finally printed is what the complete event log of
      the script says. */
  lemma PrintedTable(
      n: nat, script: seq<Order>, opening: seq<int>, states: seq<Global>, run: seq<Step>, x: nat)
    requires Behaviour(n, script, opening, states, run) && x <= |run| && HasCollected(states[x])
    ensures Formed(states[x]) && states[x].n == n && |states[x].procs[0].collected| == n
    ensures |states[x].log| == 2 * |script| && Faithful(n, states[x].log, script)
    ensures AuditOk(Table(states[x].procs[0].collected), opening)
    ensures TableAgrees(Table(states[x].procs[0].collected), opening, states[x].log)
    ensures FullLength(states[x])
  {
    var tk0 := InStepAlways(n, script, opening, states, run, x);
    CollectedInFull(states[x], tk0);
    CompletedRunPasses(n, script, opening, states, run, x);
    BooksAlwaysAgree(n, script, opening, states, run, x);
    LogFollowsScript(n, script, opening, states, run, x, 0);
    var g := states[x];
    var tk := KeptAlways(n, script, opening, states, run, x);
    forall a: nat | a < n ensures Exact(g.procs[0].collected[a], opening[a + 1], BookOf(g.log, a + 1)) {
      CollectedExact(g, tk, a);
    }
    TableIsExact(Table(g.procs[0].collected), opening, g.log);
  }
}
