/** The retrospective balance history of one account: its operations as functions on
    a sequence of cells, and the declarative oracle they agree with.  Class Ledger in
    LedgerBuffer.dfy performs them in place on a fixed buffer. */
module LedgerCells {
  import opened Wire

  const UINT8_MAX: int := 255
  const MAX_T: int := 255

  /** State of an account at one logical time. */
  datatype Cell = Cell(balance: int, time: int, pending: int)

  type Cells = seq<Cell>

  /** A change of the account: money sent away, or money that left its source at
      `sent` and arrived at `received`. */
  datatype Entry = Debit(time: int, amount: int) | Credit(sent: int, received: int, amount: int)

  predicate Int16(x: int) { INT16_MIN <= x <= INT16_MAX }

  function Opened(balance: int): Cells { [Cell(balance, 0, 0)] }

  /** Carry the last balance forward up to and including `time`. */
  function Extended(l: Cells, time: int): (r: Cells)
    requires l != []
    ensures |r| == if time < |l| then |l| else time + 1
    decreases time + 1 - |l|
  {
    if time < |l| then l else Extended(l + [Cell(l[|l| - 1].balance, |l|, 0)], time)
  }

  function Debited(l: Cells, time: nat, amount: int): Cells
    requires l != []
  {
    var e := Extended(l, time);
    e[time := e[time].(balance := e[time].balance - amount)]
  }

  function Credited(l: Cells, sent: nat, received: nat, amount: int): Cells
    requires l != [] && sent < received
  {
    var e := Extended(l, received);
    seq(|e|, t requires 0 <= t < |e| =>
      if sent <= t < received then e[t].(pending := e[t].pending + amount)
      else if t == received then e[t].(balance := e[t].balance + amount)
      else e[t])
  }

  lemma {:induction false} ExtendedCells(l: Cells, time: int)
    requires l != []
    ensures forall t :: 0 <= t < |l| ==> Extended(l, time)[t] == l[t]
    ensures forall t :: |l| <= t < |Extended(l, time)| ==> Extended(l, time)[t] == Cell(l[|l| - 1].balance, t, 0)
    decreases time + 1 - |l|
  {
    if time >= |l| {
      var m := l + [Cell(l[|l| - 1].balance, |l|, 0)];
      ExtendedCells(m, time);
      assert forall t :: 0 <= t < |l| ==> m[t] == l[t];
    }
  }

  // ---------- the oracle ----------

  function Effect(e: Entry, t: int): int {
    match e
    case Debit(time, amount) => if time <= t then -amount else 0
    case Credit(_, received, amount) => if received <= t then amount else 0
  }

  function Waiting(e: Entry, t: int): int {
    if e.Credit? && e.sent <= t < e.received then e.amount else 0
  }

  /** Initial balance, minus what left by `t`, plus what arrived by `t`. */
  function BalanceAt(opening: int, book: seq<Entry>, t: int): int {
    if book == [] then opening
    else BalanceAt(opening, book[..|book| - 1], t) + Effect(book[|book| - 1], t)
  }

  /** What had left its source by `t` but arrived only later. */
  function PendingAt(book: seq<Entry>, t: int): int {
    if book == [] then 0
    else PendingAt(book[..|book| - 1], t) + Waiting(book[|book| - 1], t)
  }

  lemma OracleNext(opening: int, book: seq<Entry>, e: Entry, t: int)
    ensures BalanceAt(opening, book + [e], t) == BalanceAt(opening, book, t) + Effect(e, t)
    ensures PendingAt(book + [e], t) == PendingAt(book, t) + Waiting(e, t)
  {
    assert (book + [e])[..|book|] == book;
  }

  /** When the entry takes full effect. */
  function Moment(e: Entry): int {
    if e.Debit? then e.time else e.received
  }

  predicate Within(book: seq<Entry>, length: int) {
    forall e :: e in book ==> 0 <= Moment(e) < length && (e.Credit? ==> 0 <= e.sent < e.received)
  }

  predicate ExactAt(c: Cell, opening: int, book: seq<Entry>, t: int) {
    c == Cell(BalanceAt(opening, book, t), t, PendingAt(book, t))
  }

  /** Every cell agrees with the oracle. */
  predicate Exact(l: Cells, opening: int, book: seq<Entry>) {
    && l != [] && Within(book, |l|)
    && forall t :: 0 <= t < |l| ==> ExactAt(l[t], opening, book, t)
  }

  /** After the last entry the oracle is constant and nothing is pending. */
  lemma {:induction false} OracleSettled(opening: int, book: seq<Entry>, length: int, t: int)
    requires Within(book, length) && t >= length - 1 >= 0
    ensures BalanceAt(opening, book, t) == BalanceAt(opening, book, length - 1)
    ensures PendingAt(book, t) == 0
  {
    if book != [] {
      var pre := book[..|book| - 1];
      assert book[|book| - 1] in book;
      assert forall e :: e in pre ==> e in book;
      OracleSettled(opening, pre, length, t);
    }
  }

  lemma OpenedExact(balance: int)
    ensures Exact(Opened(balance), balance, [])
  {
  }

  lemma ExtendedExact(l: Cells, time: int, opening: int, book: seq<Entry>)
    requires Exact(l, opening, book)
    ensures Exact(Extended(l, time), opening, book)
  {
    ExtendedCells(l, time);
    var e := Extended(l, time);
    forall t | 0 <= t < |e| ensures ExactAt(e[t], opening, book, t) {
      if t >= |l| {
        assert ExactAt(l[|l| - 1], opening, book, |l| - 1);
        OracleSettled(opening, book, |l|, t);
      } else {
        assert ExactAt(l[t], opening, book, t);
      }
    }
  }

  /** A debit at or after the end of the history keeps it exact; before the end it does
      so only when no money moves, because later cells are not revised. */
  lemma DebitExact(l: Cells, time: nat, amount: int, opening: int, book: seq<Entry>)
    requires Exact(l, opening, book)
    ensures Exact(Debited(l, time, amount), opening, book + [Debit(time, amount)])
            <==> time >= |l| - 1 || amount == 0
  {
    ExtendedExact(l, time, opening, book);
    var d, x, later := Debited(l, time, amount), Extended(l, time), book + [Debit(time, amount)];
    assert Within(later, |d|);
    forall t | 0 <= t < |d|
      ensures ExactAt(d[t], opening, later, t) <==> (t <= time || amount == 0)
    {
      assert ExactAt(x[t], opening, book, t);
      OracleNext(opening, book, Debit(time, amount), t);
    }
    if time < |l| - 1 { assert ExactAt(d[time + 1], opening, later, time + 1) <==> amount == 0; }
  }

  /** The same for a credit. */
  lemma CreditExact(l: Cells, sent: nat, received: nat, amount: int, opening: int, book: seq<Entry>)
    requires Exact(l, opening, book) && sent < received
    ensures Exact(Credited(l, sent, received, amount), opening, book + [Credit(sent, received, amount)])
            <==> received >= |l| - 1 || amount == 0
  {
    ExtendedExact(l, received, opening, book);
    var c, x := Credited(l, sent, received, amount), Extended(l, received);
    var later := book + [Credit(sent, received, amount)];
    assert Within(later, |c|);
    forall t | 0 <= t < |c|
      ensures ExactAt(c[t], opening, later, t) <==> (t <= received || amount == 0)
    {
      assert ExactAt(x[t], opening, book, t);
      OracleNext(opening, book, Credit(sent, received, amount), t);
    }
    if received < |l| - 1 { assert ExactAt(c[received + 1], opening, later, received + 1) <==> amount == 0; }
  }

  // ---------- whole books ----------

  predicate Wellformed(book: seq<Entry>) {
    forall e :: e in book ==> 0 <= Moment(e) && (e.Credit? ==> 0 <= e.sent < e.received)
  }

  function Posted(l: Cells, e: Entry): (r: Cells)
    requires l != [] && 0 <= Moment(e) && (e.Credit? ==> 0 <= e.sent < e.received)
    ensures |r| == if Moment(e) < |l| then |l| else Moment(e) + 1
  {
    match e
    case Debit(time, amount) => Debited(l, time, amount)
    case Credit(sent, received, amount) => Credited(l, sent, received, amount)
  }

  /** The ledger after the entries of a book, posted one by one to a new one. */
  function PostedAll(opening: int, book: seq<Entry>): (l: Cells)
    requires Wellformed(book)
    ensures l != []
  {
    if book == [] then Opened(opening) else Posted(PostedAll(opening, book[..|book| - 1]), book[|book| - 1])
  }

  /** The latest moment of a book, the opening included. */
  function LatestMoment(book: seq<Entry>): int {
    if book == [] then 0
    else var m := LatestMoment(book[..|book| - 1]); if Moment(book[|book| - 1]) > m then Moment(book[|book| - 1]) else m
  }

  /** Entry `k` is not posted into the past, unless it moves no money. */
  predicate NotLate(book: seq<Entry>, k: nat)
    requires k < |book|
  {
    Moment(book[k]) >= LatestMoment(book[..k]) || book[k].amount == 0
  }

  lemma {:induction false} PostedLength(opening: int, book: seq<Entry>)
    requires Wellformed(book)
    ensures |PostedAll(opening, book)| == LatestMoment(book) + 1
  {
    if book != [] { PostedLength(opening, book[..|book| - 1]); }
  }

  /** One entry keeps a ledger exact if and only if it is not late. */
  lemma PostedExact(l: Cells, e: Entry, opening: int, book: seq<Entry>)
    requires Exact(l, opening, book) && 0 <= Moment(e) && (e.Credit? ==> 0 <= e.sent < e.received)
    ensures Exact(Posted(l, e), opening, book + [e]) <==> Moment(e) >= |l| - 1 || e.amount == 0
  {
    match e
    case Debit(time, amount) => DebitExact(l, time, amount, opening, book);
    case Credit(sent, received, amount) => CreditExact(l, sent, received, amount, opening, book);
  }

  ghost predicate ExactAfter(opening: int, book: seq<Entry>, k: nat)
    requires Wellformed(book) && k <= |book|
  {
    Exact(PostedAll(opening, book[..k]), opening, book[..k])
  }

  ghost predicate ExactThroughout(opening: int, book: seq<Entry>)
    requires Wellformed(book)
  {
    forall k: nat :: k <= |book| ==> ExactAfter(opening, book, k)
  }

  predicate NoneLate(book: seq<Entry>) { forall k: nat :: k < |book| ==> NotLate(book, k) }

  lemma ExactSplits(opening: int, book: seq<Entry>)
    requires Wellformed(book) && book != []
    ensures var pre := book[..|book| - 1];
            ExactThroughout(opening, book) <==>
            ExactThroughout(opening, pre) && Exact(PostedAll(opening, book), opening, book)
  {
    var pre := book[..|book| - 1];
    forall k: nat | k < |book| ensures ExactAfter(opening, pre, k) == ExactAfter(opening, book, k) {
      assert pre[..k] == book[..k];
    }
    assert book[..|book|] == book;
    assert ExactAfter(opening, book, |book|) == Exact(PostedAll(opening, book), opening, book);
  }

  lemma LateSplits(book: seq<Entry>)
    requires book != []
    ensures NoneLate(book) <==> NoneLate(book[..|book| - 1]) && NotLate(book, |book| - 1)
  {
    var pre := book[..|book| - 1];
    forall k: nat | k < |pre| ensures NotLate(pre, k) == NotLate(book, k) { assert pre[..k] == book[..k]; }
  }

  /** Posting a book keeps the ledger in agreement with the oracle after every entry if and
      only if no entry is late. */
  lemma {:induction false} BookExact(opening: int, book: seq<Entry>)
    requires Wellformed(book)
    ensures ExactThroughout(opening, book) <==> NoneLate(book)
  {
    if book == [] {
      OpenedExact(opening);
      assert ExactAfter(opening, book, 0);
    } else {
      var last := |book| - 1;
      var pre, e := book[..last], book[last];
      assert book == pre + [e] && pre[..last] == pre;
      BookExact(opening, pre);
      ExactSplits(opening, book);
      LateSplits(book);
      PostedLength(opening, pre);
      if ExactThroughout(opening, pre) {
        assert ExactAfter(opening, pre, last);
        PostedExact(PostedAll(opening, pre), e, opening, pre);
      }
    }
  }

  lemma {:induction false} LatestBounded(book: seq<Entry>, m: int)
    requires m >= 0 && forall e :: e in book ==> Moment(e) <= m
    ensures LatestMoment(book) <= m
  {
    if book != [] { LatestBounded(book[..|book| - 1], m); }
  }

  /** The closing theorem: the ledger of any book in the order of its moments agrees with
      the oracle cell by cell. */
  lemma OrderedBookExact(opening: int, book: seq<Entry>)
    requires Wellformed(book) && forall j: nat, k: nat :: j < k < |book| ==> Moment(book[j]) <= Moment(book[k])
    ensures Exact(PostedAll(opening, book), opening, book)
  {
    forall k: nat | k < |book| ensures NotLate(book, k) { LatestBounded(book[..k], Moment(book[k])); }
    BookExact(opening, book);
    assert ExactAfter(opening, book, |book|) && book[..|book|] == book;
  }

  // ---------- what the account is worth ----------

  /** Balance plus pending money at `t`, the last balance carried forward. */
  function Worth(l: Cells, t: nat): int
    requires l != []
  {
    if t < |l| then l[t].balance + l[t].pending else l[|l| - 1].balance
  }

  lemma ExtendedWorth(l: Cells, time: int, t: nat)
    requires l != [] && l[|l| - 1].pending == 0
    ensures Worth(Extended(l, time), t) == Worth(l, t)
    ensures Extended(l, time)[|Extended(l, time)| - 1].pending == 0
  {
    ExtendedCells(l, time);
  }

  lemma DebitedWorth(l: Cells, time: nat, amount: int, t: nat)
    requires l != [] && l[|l| - 1].pending == 0 && time >= |l|
    ensures Worth(Debited(l, time, amount), t) == Worth(l, t) - (if t >= time then amount else 0)
  {
    ExtendedWorth(l, time, t);
  }

  /** Pending money counts from the moment it was sent, so the credit makes up for
      the frame that disappears from the channel at every single time. */
  lemma CreditedWorth(l: Cells, sent: nat, received: nat, amount: int, t: nat)
    requires l != [] && l[|l| - 1].pending == 0 && sent < received && received >= |l|
    ensures Worth(Credited(l, sent, received, amount), t) == Worth(l, t) + (if t >= sent then amount else 0)
  {
    ExtendedWorth(l, received, t);
  }
}
