/** The slowest way to stop: account n first, and every other one only after it has heard
    DONE of all those before it.  In this order the clocks reach the last moment; and it is
    the order of accounts whose searches had all just passed the parent when STOP was sent. */
module BankChain {
  import opened Wire
  import opened BankProcess
  import opened BankSystem
  import opened BankPair
  import opened BankInvariant
  import opened BankSteps
  import opened BankProgress
  import opened BankTimes
  import opened BankLog
  import opened BankTermination
  import opened BankSearch

  // ---------- up to STOP ----------

  /** Every account waits in its main loop and has nothing to hear, and STOP is next. */
  ghost predicate Poised(g: Global)
    requires Formed(g)
  {
    && g.procs[0].pc.Issue? && g.procs[0].pc.k >= |g.script| && g.procs[0].out.Quiet?
    && (forall i :: 1 <= i <= g.n ==> AtRest(g.procs[i], false))
    && forall i, j :: Pair(g, i, j) && j >= 1 ==> g.chan[i][j] == []
  }

  /** What a link to an account in its main loop no longer holds, or not yet. */
  lemma EmptyLink(g: Global, i: nat, j: nat)
    requires Inv(g, None) && Pair(g, i, j) && j >= 1 && g.procs[j].pc.Running?
    requires if i == 0 then !HasStopped(g.procs[0]) else !g.procs[i].stopped || g.procs[j].doneMask[i]
    ensures g.chan[i][j] == []
  {
    assert PairAt(g, None, i, j);
    EmptyView(ViewOf(g.procs[i], g.procs[j], None));
    KindsPresent(Link(g, i, j));
  }

  lemma StalledIsPoised(g: Global, tk: Token)
    requires Kept(g, tk) && Stalled(g) && !HasStopped(g.procs[0])
    ensures Poised(g)
  {
    StalledNoToken(g, tk);
    StalledBeforeStop(g, tk, 1);
    forall i: nat | 1 <= i <= g.n ensures AtRest(g.procs[i], false) { StalledBeforeStop(g, tk, i); }
    forall i: nat, j: nat | Pair(g, i, j) && j >= 1 ensures g.chan[i][j] == [] { EmptyLink(g, i, j); }
  }

  /** Every walk can go on until STOP is next. */
  lemma {:induction false} ToStop(b: Search, tk: Token) returns (d: Search)
    requires Live(b) && Kept(b.g, tk) && !HasStopped(b.g.procs[0])
    ensures Live(d) && SameBank(b.g, d.g) && Poised(d.g)
    decreases Left(b.g, tk)
  {
    if Stalled(b.g) {
      StalledIsPoised(b.g, tk);
      d := b;
    } else {
      var s :| Enabled(b.g, s) && !s.a.Stop? && !TakesStop(s.a);
      var b', s' := Goes(b, s);
      MovableOwes(b.g, tk, s');
      StepLeaves(b.g, tk, s');
      StepKept(b.g, tk, s');
      TokenPaces(b.g, tk, s');
      LiveNext(b', Act(s'));
      d := ToStop(After(b', Act(s')), NextToken(b.g.procs[s'.k], s'.a, tk, b.g.script));
    }
  }

  // ---------- STOP ----------

  /** All searches but that of account `j` are at the first account. */
  ghost predicate Aligned(b: Search, j: nat)
    requires Placed(b)
  {
    forall i :: 1 <= i <= b.g.n && i != j ==> b.cursor[i] == 1
  }

  /** With nothing to hear, a search can come to the first account. */
  lemma TurnOne(b: Search, k: nat) returns (d: Search)
    requires Live(b) && Poised(b.g) && 1 <= k <= b.g.n
    ensures Live(d) && d.g == b.g && d.cursor == b.cursor[k := 1]
  {
    assert AtRest(b.g.procs[k], false);
    forall i | 0 <= i <= b.g.n && i != k ensures b.g.chan[i][k] == [] { assert Pair(b.g, i, k); }
    d := b;
    if b.cursor[k] > 1 { d := Seek(d, k, b.g.n + 1); }
    d := Seek(d, k, 1);
  }

  lemma {:induction false} TurnAll(b: Search, k: nat) returns (d: Search)
    requires Live(b) && Poised(b.g) && k <= b.g.n
    ensures Live(d) && d.g == b.g && forall i :: 1 <= i <= k ==> d.cursor[i] == 1
    decreases k
  {
    d := b;
    if k > 0 {
      d := TurnAll(b, k - 1);
      d := TurnOne(d, k);
    }
  }

  /** STOP goes out to everybody before anybody reads it. */
  lemma SendsStop(b: Search) returns (d: Search)
    requires Live(b) && Poised(b.g) && Aligned(b, 0)
    ensures Live(d) && SameBank(b.g, d.g) && Aligned(d, 0) && Chained(d.g, 0, 0)
  {
    var tk := LiveKept(b);
    var s := Step(0, Stop);
    LiveNext(b, Act(s));
    ActedClock(b.g.procs[0], Stop, b.g.script);
    d := WriteOut(After(b, Act(s)), 0);
    var tk' := LiveKept(d);
    forall i | 1 <= i <= d.g.n ensures AtRest(d.g.procs[i], false) { assert AtRest(b.g.procs[i], false); }
    ChainBegins(d.g);
  }

  // ---------- the chain ----------

  /** An account in the chain: it has stopped and has heard exactly those that stopped
      before it, or it has not and has heard nobody. */
  predicate InChain(p: Proc, orders: nat)
    requires Shaped(p) && p.id <= p.n
  {
    && (forall x :: 1 <= x <= p.n ==> p.doneMask[x] == (p.stopped && x > p.id))
    && (if p.stopped then p.clock == Latest(p.n, orders, p.n + 1 - p.id) else p.clock <= StopStamp(p.n, orders))
  }

  predicate AtRest(p: Proc, stopped: bool) { p.pc.Running? && p.out.Quiet? && p.stopped == stopped }

  predicate DonesStamped(frames: seq<Frame>, ts: int) { forall m :: m in frames && m.kind.DONE? ==> m.ts == ts }

  /** The last `c` accounts have stopped one after the other; account `j` is the one the
      chain is busy with, if it is one. */
  ghost predicate Chained(g: Global, c: nat, j: nat)
    requires Formed(g)
  {
    && c <= g.n && g.procs[0].pc == AwaitDone(1) && g.procs[0].out.Quiet?
    && (forall i :: 1 <= i <= g.n ==> AtRest(g.procs[i], i > g.n - c))
    && (forall i :: 1 <= i <= g.n && i != j ==> InChain(g.procs[i], |g.script|))
    && forall i: nat, x: nat :: Pair(g, i, x) && i > g.n - c ==> StampedInChain(g, i, x)
  }

  ghost predicate StampedInChain(g: Global, i: nat, x: nat)
    requires Formed(g) && 1 <= i <= g.n && x <= g.n
  {
    DonesStamped(Link(g, i, x), Latest(g.n, |g.script|, g.n + 1 - i))
  }

  /** Account `j` has taken in the DONEs of the accounts up to `y`, the latest one first. */
  ghost predicate Reading(g: Global, c: nat, j: nat, y: nat)
    requires Formed(g)
  {
    && Chained(g, c, j) && 1 <= j <= g.n && g.n - c <= y <= g.n
    && ReadUpTo(g.procs[j], c, y, Latest(g.n, |g.script|, c))
  }

  predicate ReadUpTo(p: Proc, c: nat, y: nat, latest: int)
    requires Shaped(p) && c <= p.n
  {
    && (forall x :: 1 <= x <= p.n ==> p.doneMask[x] == (p.n - c < x <= y))
    && (if y == p.n - c then p.clock <= latest else p.clock == latest + y - (p.n - c))
  }

  /** The chain can begin where STOP is out and nobody has read it. */
  lemma ChainBegins(g: Global)
    requires Kept(g, None) && g.procs[0].pc == AwaitDone(1) && g.procs[0].out.Quiet?
    requires forall i :: 1 <= i <= g.n ==> AtRest(g.procs[i], false)
    ensures Chained(g, 0, 0)
  {
    var f := PhaseOf(g, None);
    forall i | 1 <= i <= g.n ensures !g.procs[i].stopped { assert AtRest(g.procs[i], false); }
    assert !g.procs[0].stopped;
    assert StopMarks(g.procs) == seq(g.n + 1, _ => false);
    NoMarks(g.n + 1);
    forall i: nat | 1 <= i <= g.n ensures InChain(g.procs[i], |g.script|) {
      assert AtRest(g.procs[i], false);
      UnheardUnstopped(g, i);
      HeardOnlyStopped(g, None, i);
      assert ChildOnTime(f, g.procs[i]);
    }
  }

  lemma UnheardUnstopped(g: Global, i: nat)
    requires Kept(g, None) && 1 <= i <= g.n && forall j :: 1 <= j <= g.n ==> !g.procs[j].stopped
    ensures forall x :: 1 <= x <= g.n ==> !g.procs[i].doneMask[x]
  {
    assert ChildInv(g.procs[i], g.opening[i]);
    forall x: nat | 1 <= x <= g.n ensures !g.procs[i].doneMask[x] {
      if x != i { assert PairAt(g, None, x, i); }
    }
  }

  // ---------- one more DONE ----------

  /** What the link from a stopped account holds for one that has not heard of it. */
  lemma DoneWaiting(g: Global, i: nat, j: nat)
    requires Inv(g, None) && 1 <= i <= g.n && 1 <= j <= g.n && i != j
    requires AtRest(g.procs[i], true) && g.procs[j].pc.Running? && !g.procs[j].doneMask[i]
    ensures Link(g, i, j) == g.chan[i][j] && |g.chan[i][j]| == 1 && g.chan[i][j][0].kind.DONE?
  {
    assert Pair(g, i, j) && PairAt(g, None, i, j);
    var f := Link(g, i, j);
    assert f == g.chan[i][j];
    KindsPresent(f);
    assert Kinds(f) == [DONE];
    TakeFirst(ViewOf(g.procs[i], g.procs[j], None), f);
  }

  ghost function Hearing(g: Global, i: nat, j: nat): Step
    requires Formed(g) && i <= g.n && j <= g.n && g.chan[i][j] != []
  {
    Step(j, Recv(i, g.chan[i][j][0], 0))
  }

  /** What taking a DONE of `i` makes of an account. */
  predicate TookDone(p: Proc, q: Proc, i: nat, ts: int)
    requires i < |p.doneMask|
  {
    AtRest(q, p.stopped) && q.doneMask == p.doneMask[i := true] && q.clock == Later(p.clock, ts)
  }

  /** A running account takes a DONE. */
  lemma HearDone(g: Global, i: nat, j: nat)
    requires Kept(g, None) && 1 <= i <= g.n && 1 <= j <= g.n && i != j
    requires AtRest(g.procs[i], true) && AtRest(g.procs[j], g.procs[j].stopped) && !g.procs[j].doneMask[i]
    ensures Searching(g.procs[j]) && g.chan[i][j] != [] && g.chan[i][j][0].kind.DONE?
    ensures Enabled(g, Hearing(g, i, j))
    ensures TookDone(g.procs[j], Apply(g, Hearing(g, i, j)).procs[j], i, g.chan[i][j][0].ts)
  {
    StillServing(g, j, i);
    DoneWaiting(g, i, j);
    var s, p := Hearing(g, i, j), g.procs[j];
    Accepted(g, None, s);
    RunningReceiver(p, s.a, g.script);
    HeardClock(p, s.a, g.script);
  }

  /** A step that stamps nothing adds nothing to any link. */
  lemma LinksShrink(g: Global, s: Step, a: nat, b: nat)
    requires Formed(g) && Enabled(g, s) && Pair(g, a, b) && (s.k != a || AddedTo(g.procs[a], s.a, g.script, b) == [])
    ensures forall m :: m in Link(Apply(g, s), a, b) ==> m in Link(g, a, b)
  {
    StepMovesLinks(g, s, a, b);
  }

  lemma StillServing(g: Global, j: nat, y: nat)
    requires Kept(g, None) && 1 <= j <= g.n && 1 <= y <= g.n && y != j
    requires g.procs[j].pc.Running? && !g.procs[j].doneMask[y]
    ensures Serving(g.procs[j])
  {
    assert ChildInv(g.procs[j], g.opening[j]) && Tallied(g.procs[j]);
    MarksComplete(g.procs[j].doneMask, j);
  }

  lemma HearingAddsNothing(g: Global, i: nat, j: nat)
    requires Kept(g, None) && i <= g.n && j <= g.n && g.chan[i][j] != [] && g.chan[i][j][0].kind.DONE?
    requires Enabled(g, Hearing(g, i, j))
    ensures Stamped(g.procs[j], Hearing(g, i, j).a, g.script).Quiet?
  {
    Accepted(g, None, Hearing(g, i, j));
    HeardClock(g.procs[j], Hearing(g, i, j).a, g.script);
  }

  /** The DONE that is read next is no later than the clock has become by now. */
  lemma ReadNext(p: Proc, q: Proc, c: nat, y: nat, orders: nat, ts: int)
    requires Shaped(p) && Shaped(q) && q.n == p.n && c <= p.n && p.n - c <= y < p.n
    requires ReadUpTo(p, c, y, Latest(p.n, orders, c)) && ts == Latest(p.n, orders, p.n - y)
    requires TookDone(p, q, y + 1, ts)
    ensures ReadUpTo(q, c, y + 1, Latest(p.n, orders, c))
  {
    LatestGrows(p.n, orders, p.n - y, c);
  }

  lemma StampsRemain(g: Global, s: Step, c: nat, j: nat)
    requires Formed(g) && Enabled(g, s) && Chained(g, c, j)
    requires Stamped(g.procs[s.k], s.a, g.script).Quiet?
    ensures forall a: nat, x: nat :: Pair(g, a, x) && a > g.n - c ==> StampedInChain(Apply(g, s), a, x)
  {
    forall a: nat, x: nat | Pair(g, a, x) && a > g.n - c ensures StampedInChain(Apply(g, s), a, x) {
      assert StampedInChain(g, a, x);
      LinksShrink(g, s, a, x);
    }
  }

  /** The account that reads is the only one that changes. */
  lemma ReadingGoesOn(g: Global, h: Global, c: nat, j: nat, y: nat)
    requires Formed(g) && Formed(h) && SameBank(g, h) && Reading(g, c, j, y) && y < g.n
    requires h.procs == g.procs[j := h.procs[j]] && AtRest(h.procs[j], g.procs[j].stopped)
    requires ReadUpTo(h.procs[j], c, y + 1, Latest(g.n, |g.script|, c))
    requires forall a: nat, x: nat :: Pair(g, a, x) && a > g.n - c ==> StampedInChain(h, a, x)
    ensures Reading(h, c, j, y + 1)
  {
    assert forall a: nat, x: nat :: Pair(h, a, x) ==> Pair(g, a, x);
    assert AtRest(g.procs[j], j > g.n - c);
  }

  lemma NextStamp(g: Global, c: nat, j: nat, y: nat)
    requires Formed(g) && Reading(g, c, j, y) && y < g.n && y + 1 != j
    requires g.chan[y + 1][j] != [] && g.chan[y + 1][j][0].kind.DONE?
    ensures g.chan[y + 1][j][0].ts == Latest(g.n, |g.script|, g.n - y)
  {
    assert Pair(g, y + 1, j) && StampedInChain(g, y + 1, j);
    assert g.chan[y + 1][j][0] in Link(g, y + 1, j);
  }

  lemma ReadDone(g: Global, c: nat, j: nat, y: nat)
    requires Formed(g) && Reading(g, c, j, y) && y < g.n && y + 1 != j
    requires g.chan[y + 1][j] != [] && g.chan[y + 1][j][0].kind.DONE? && Enabled(g, Hearing(g, y + 1, j))
    requires TookDone(g.procs[j], Apply(g, Hearing(g, y + 1, j)).procs[j], y + 1, g.chan[y + 1][j][0].ts)
    requires Stamped(g.procs[j], Hearing(g, y + 1, j).a, g.script).Quiet?
    ensures Reading(Apply(g, Hearing(g, y + 1, j)), c, j, y + 1)
  {
    NextStamp(g, c, j, y);
    ReadNext(g.procs[j], Apply(g, Hearing(g, y + 1, j)).procs[j], c, y, |g.script|, g.chan[y + 1][j][0].ts);
    StampsRemain(g, Hearing(g, y + 1, j), c, j);
    ReadingGoesOn(g, Apply(g, Hearing(g, y + 1, j)), c, j, y);
  }

  lemma ReaderHears(g: Global, c: nat, j: nat, y: nat)
    requires Kept(g, None) && Reading(g, c, j, y) && y < g.n && y + 1 != j
    ensures Searching(g.procs[j]) && g.chan[y + 1][j] != [] && g.chan[y + 1][j][0].kind.DONE?
    ensures Enabled(g, Hearing(g, y + 1, j))
    ensures TookDone(g.procs[j], Apply(g, Hearing(g, y + 1, j)).procs[j], y + 1, g.chan[y + 1][j][0].ts)
  {
    assert AtRest(g.procs[y + 1], true) && AtRest(g.procs[j], j > g.n - c);
    HearDone(g, y + 1, j);
  }

  /** What hearing the next DONE leads to. */
  lemma ReadStep(g: Global, c: nat, j: nat, y: nat)
    requires Kept(g, None) && Reading(g, c, j, y) && y < g.n && y + 1 != j
    ensures Searching(g.procs[j]) && g.chan[y + 1][j] != [] && Enabled(g, Hearing(g, y + 1, j))
    ensures Reading(Apply(g, Hearing(g, y + 1, j)), c, j, y + 1)
  {
    ReaderHears(g, c, j, y);
    HearingAddsNothing(g, y + 1, j);
    ReadDone(g, c, j, y);
  }

  /** The accounts that have not stopped have nothing to say. */
  lemma NobodyBefore(g: Global, c: nat, j: nat)
    requires Kept(g, None) && Chained(g, c, j) && 1 <= j <= g.n
    ensures forall i: nat :: 1 <= i <= g.n - c && i != j ==> g.chan[i][j] == []
  {
    forall i: nat | 1 <= i <= g.n - c && i != j ensures g.chan[i][j] == [] {
      assert AtRest(g.procs[i], false) && AtRest(g.procs[j], j > g.n - c);
      EmptyLink(g, i, j);
    }
  }

  /** Where the search of the reader stands. */
  ghost predicate ReadsOn(b: Search, c: nat, j: nat, y: nat)
    requires Placed(b)
  {
    && Reading(b.g, c, j, y) && Aligned(b, j)
    && b.cursor[j] == if y == b.g.n - c then 1 else Wrapped(y + 1, b.g.n)
  }

  /** The search comes to the next account that has stopped. */
  lemma ComesToNext(b: Search, c: nat, j: nat, y: nat) returns (d: Search)
    requires Live(b) && ReadsOn(b, c, j, y) && y < b.g.n && Searching(b.g.procs[j])
    ensures Live(d) && d.g == b.g && d.cursor == b.cursor[j := y + 1]
  {
    var tk := LiveKept(b);
    NobodyBefore(b.g, c, j);
    d := Seek(b, j, y + 1);
  }

  lemma HearsDone(b: Search, c: nat, j: nat, y: nat)
    requires Live(b) && ReadsOn(b, c, j, y) && y < b.g.n && y + 1 != j
    ensures Searching(b.g.procs[j]) && b.g.chan[y + 1][j] != [] && Enabled(b.g, Hearing(b.g, y + 1, j))
    ensures Reading(Apply(b.g, Hearing(b.g, y + 1, j)), c, j, y + 1)
  {
    var tk := LiveKept(b);
    ReadStep(b.g, c, j, y);
  }

  lemma ReadMore(b: Search, c: nat, j: nat, y: nat) returns (d: Search)
    requires Live(b) && ReadsOn(b, c, j, y) && y + 1 <= b.g.n && y + 1 != j
    ensures Live(d) && SameBank(b.g, d.g) && ReadsOn(d, c, j, y + 1)
  {
    HearsDone(b, c, j, y);
    d := ComesToNext(b, c, j, y);
    d := HearsNext(d, Hearing(b.g, y + 1, j));
    StillReads(b, d, c, j, y);
  }

  lemma StillReads(b: Search, d: Search, c: nat, j: nat, y: nat)
    requires Placed(b) && Placed(d) && SameBank(b.g, d.g) && ReadsOn(b, c, j, y) && y < b.g.n
    requires Reading(d.g, c, j, y + 1) && d.cursor == b.cursor[j := Wrapped(y + 2, b.g.n)]
    ensures ReadsOn(d, c, j, y + 1)
  {
  }

  lemma {:induction false} ReadAll(b: Search, c: nat, j: nat, y: nat, goal: nat) returns (d: Search)
    requires Live(b) && ReadsOn(b, c, j, y) && y <= goal <= b.g.n && !(y < j <= goal)
    ensures Live(d) && SameBank(b.g, d.g) && ReadsOn(d, c, j, goal)
    decreases goal - y
  {
    d := b;
    if y < goal {
      d := ReadMore(b, c, j, y);
      d := ReadAll(d, c, j, y + 1, goal);
    }
  }

  // ---------- writing a frame to everybody ----------

  ghost predicate SameLinks(g: Global, h: Global)
    requires Formed(g) && Formed(h) && h.n == g.n
  {
    forall a: nat, b: nat :: Pair(g, a, b) ==> Link(h, a, b) == Link(g, a, b)
  }

  lemma WriteMovesNothing(g: Global, k: nat)
    requires Formed(g) && Enabled(g, Step(k, Write))
    ensures SameLinks(g, Apply(g, Step(k, Write)))
  {
    forall a: nat, b: nat | Pair(g, a, b) ensures Link(Apply(g, Step(k, Write)), a, b) == Link(g, a, b) {
      StepMovesLinks(g, Step(k, Write), a, b);
      assert Link(g, a, b) + [] == Link(g, a, b);
    }
  }

  lemma SameLinksAgain(f: Global, g: Global, h: Global)
    requires Formed(f) && Formed(g) && Formed(h) && f.n == g.n == h.n && SameLinks(f, g) && SameLinks(g, h)
    ensures SameLinks(f, h)
  {
    assert forall a: nat, b: nat :: Pair(f, a, b) ==> Pair(g, a, b);
  }

  /** A frame being written can be written to the end, and no link notices. */
  lemma {:induction false} WriteOut(b: Search, k: nat) returns (d: Search)
    requires Live(b) && k <= b.g.n && b.g.procs[k].out.Sending?
    ensures Live(d) && SameBank(b.g, d.g) && d.cursor == b.cursor
    ensures d.g.procs == b.g.procs[k := b.g.procs[k].(out := Quiet)] && SameLinks(b.g, d.g)
    decreases b.g.procs[k].out.last - b.g.procs[k].out.next
  {
    LiveNext(b, Act(Step(k, Write)));
    WriteMovesNothing(b.g, k);
    d := After(b, Act(Step(k, Write)));
    if d.g.procs[k].out.Sending? {
      var b' := d;
      d := WriteOut(b', k);
      SameLinksAgain(b.g, b'.g, d.g);
    }
  }

  // ---------- one more STOP ----------

  /** What the link from the parent holds for an account that has not stopped. */
  lemma StopWaiting(g: Global, j: nat)
    requires Kept(g, None) && g.procs[0].pc == AwaitDone(1) && g.procs[0].out.Quiet? && 1 <= j <= g.n
    requires AtRest(g.procs[j], false)
    ensures g.chan[0][j] != [] && g.chan[0][j][0].kind.STOP? && g.chan[0][j][0].ts == StopStamp(g.n, |g.script|)
    ensures Enabled(g, Hearing(g, 0, j))
  {
    var f, v := Link(g, 0, j), ViewOf(g.procs[0], g.procs[j], None);
    assert Pair(g, 0, j) && PairAt(g, None, 0, j) && LinkOnTime(PhaseOf(g, None), f);
    assert f == g.chan[0][j];
    KindsPresent(f);
    assert Kinds(f) == [STOP];
    TakeFirst(v, f);
    assert f[0] in f;
  }

  /** An account that has not stopped has sent no DONE. */
  lemma NoDoneYet(g: Global, j: nat, x: nat)
    requires Inv(g, None) && Pair(g, j, x) && j >= 1 && !g.procs[j].stopped
    ensures forall m :: m in Link(g, j, x) ==> !m.kind.DONE?
  {
    assert PairAt(g, None, j, x);
    KindsPresent(Link(g, j, x));
  }

  lemma HearStop(g: Global, j: nat)
    requires Kept(g, None) && 1 <= j <= g.n && AtRest(g.procs[j], false)
    requires g.chan[0][j] != [] && g.chan[0][j][0].kind.STOP? && Enabled(g, Hearing(g, 0, j))
    ensures var p, q, ts := g.procs[j], Do(g.procs[j], Hearing(g, 0, j).a, g.script), g.chan[0][j][0].ts;
            && q.pc == p.pc && q.stopped && q.doneMask == p.doneMask && q.clock == Later(p.clock, ts) + 1
            && q.out.Sending? && q.out.frame.kind.DONE? && q.out.frame.ts == q.clock
  {
    var s := Hearing(g, 0, j);
    Accepted(g, None, s);
    RunningReceiver(g.procs[j], s.a, g.script);
    HeardClock(g.procs[j], s.a, g.script);
  }

  /** A link stays in line when what joins it is stamped alike. */
  lemma GrownStamps(g: Global, s: Step, i: nat, x: nat)
    requires Formed(g) && Enabled(g, s) && Pair(g, i, x) && i >= 1 && StampedInChain(g, i, x)
    requires i == s.k ==> var q := Do(g.procs[i], s.a, g.script);
                          q.out.Sending? && q.out.frame.ts == Latest(g.n, |g.script|, g.n + 1 - i)
    ensures StampedInChain(Apply(g, s), i, x)
  {
    StepMovesLinks(g, s, i, x);
  }

  /** Before an account stops there is nothing of its own to be stamped wrongly. */
  lemma StampedBefore(g: Global, c: nat, j: nat, i: nat, x: nat)
    requires Inv(g, None) && Chained(g, c, j) && 1 <= j <= g.n && j == g.n - c && Pair(g, i, x) && i >= j
    ensures StampedInChain(g, i, x)
  {
    if i == j {
      assert AtRest(g.procs[j], false);
      NoDoneYet(g, j, x);
    }
  }

  /** With the DONEs of all before it taken in, an account that reads STOP stamps the
      latest DONE there can be. */
  lemma StopClock(p: Proc, c: nat, orders: nat)
    requires Shaped(p) && c <= p.n && ReadUpTo(p, c, p.n, Latest(p.n, orders, c))
    ensures Later(p.clock, StopStamp(p.n, orders)) + 1 == Latest(p.n, orders, c + 1)
  {
    LatestGrows(p.n, orders, 0, c);
  }

  /** What reading STOP makes of an account. */
  predicate TookStop(p: Proc, q: Proc, clock: int) {
    && q.pc == p.pc && q.stopped && q.doneMask == p.doneMask && q.clock == clock
    && q.out.Sending? && q.out.frame.ts == clock
  }

  /** The next account of the chain reads STOP and stamps its DONE. */
  lemma ReadsStop(g: Global, c: nat, j: nat)
    requires Kept(g, None) && g.procs[0].pc == AwaitDone(1) && g.procs[0].out.Quiet? && 1 <= j <= g.n && c <= g.n
    requires AtRest(g.procs[j], false) && ReadUpTo(g.procs[j], c, g.n, Latest(g.n, |g.script|, c))
    ensures g.chan[0][j] != [] && Enabled(g, Hearing(g, 0, j))
    ensures TookStop(g.procs[j], Apply(g, Hearing(g, 0, j)).procs[j], Latest(g.n, |g.script|, c + 1))
  {
    StopWaiting(g, j);
    HearStop(g, j);
    StopClock(g.procs[j], c, |g.script|);
  }

  lemma StampsAfterStop(g: Global, c: nat, j: nat)
    requires Inv(g, None) && Chained(g, c, j) && 1 <= j == g.n - c
    requires g.chan[0][j] != [] && Enabled(g, Hearing(g, 0, j))
    requires TookStop(g.procs[j], Apply(g, Hearing(g, 0, j)).procs[j], Latest(g.n, |g.script|, c + 1))
    ensures forall i: nat, x: nat :: Pair(g, i, x) && i >= j ==> StampedInChain(Apply(g, Hearing(g, 0, j)), i, x)
  {
    forall i: nat, x: nat | Pair(g, i, x) && i >= j ensures StampedInChain(Apply(g, Hearing(g, 0, j)), i, x) {
      StampedBefore(g, c, j, i, x);
      GrownStamps(g, Hearing(g, 0, j), i, x);
    }
  }

  /** The search comes to the parent, and STOP. */
  lemma ComesToParent(b: Search, c: nat) returns (d: Search)
    requires Live(b) && Kept(b.g, None) && c < b.g.n && ReadsOn(b, c, b.g.n - c, b.g.n)
    ensures Live(d) && d.g == b.g && d.cursor == b.cursor[b.g.n - c := 0]
  {
    assert AtRest(b.g.procs[b.g.n - c], false);
    d := b;
    if c == 0 {
      NobodyBefore(b.g, 0, b.g.n);
      d := Seek(b, b.g.n, b.g.n + 1);
    }
  }

  lemma Stops(b: Search, c: nat) returns (d: Search)
    requires Live(b) && c < b.g.n && ReadsOn(b, c, b.g.n - c, b.g.n)
    ensures Live(d) && SameBank(b.g, d.g) && Aligned(d, 0) && Chained(d.g, c + 1, 0)
  {
    var j := b.g.n - c;
    var tk := LiveKept(b);
    assert AtRest(b.g.procs[j], false);
    ReadsStop(b.g, c, j);
    StampsAfterStop(b.g, c, j);
    var b' := ComesToParent(b, c);
    b' := HearsNext(b', Hearing(b.g, 0, j));
    d := WriteOut(b', j);
    LinkGrown(b.g, b'.g, d.g, c, j);
  }

  lemma LinkGrown(g: Global, g': Global, h: Global, c: nat, j: nat)
    requires Formed(g) && Formed(g') && Formed(h) && SameBank(g, g') && SameBank(g, h)
    requires Reading(g, c, j, g.n) && 1 <= j == g.n - c
    requires g'.procs == g.procs[j := g'.procs[j]] && SameLinks(g', h)
    requires h.procs == g'.procs[j := g'.procs[j].(out := Quiet)]
    requires TookStop(g.procs[j], g'.procs[j], Latest(g.n, |g.script|, c + 1))
    requires forall i: nat, x: nat :: Pair(g, i, x) && i >= j ==> StampedInChain(g', i, x)
    ensures Chained(h, c + 1, 0)
  {
    assert AtRest(g.procs[j], false);
    forall i: nat, x: nat | Pair(h, i, x) && i > h.n - (c + 1) ensures StampedInChain(h, i, x) {
      assert Pair(g, i, x) && Pair(g', i, x) && StampedInChain(g', i, x);
    }
  }

  // ---------- the whole chain ----------

  lemma NextReader(g: Global, c: nat, j: nat)
    requires Formed(g) && Chained(g, c, 0) && 1 <= j <= g.n
    requires if c < g.n then j == g.n - c else j == g.n > 1
    ensures Reading(g, c, j, g.n - c)
  {
    assert AtRest(g.procs[j], j > g.n - c) && InChain(g.procs[j], |g.script|);
    LatestGrows(g.n, |g.script|, 0, c);
    LatestGrows(g.n, |g.script|, 1, g.n);
  }

  /** One account after the other stops, each having heard all those before it. */
  lemma {:induction false} ChainRuns(b: Search, c: nat) returns (d: Search)
    requires Live(b) && Aligned(b, 0) && Chained(b.g, c, 0)
    ensures Live(d) && SameBank(b.g, d.g) && Aligned(d, 0) && Chained(d.g, b.g.n, 0)
    decreases b.g.n - c
  {
    d := b;
    if c < b.g.n {
      NextReader(b.g, c, b.g.n - c);
      d := ReadAll(d, c, b.g.n - c, b.g.n - c, b.g.n);
      d := Stops(d, c);
      d := ChainRuns(d, c + 1);
    }
  }

  /** Account n, the first to stop, hears DONE of everybody. */
  lemma ChainEnds(b: Search) returns (d: Search)
    requires Live(b) && Aligned(b, 0) && Chained(b.g, b.g.n, 0)
    ensures Live(d) && SameBank(b.g, d.g) && AtRest(d.g.procs[b.g.n], true)
    ensures forall x :: 1 <= x < b.g.n ==> d.g.procs[b.g.n].doneMask[x]
    ensures d.g.procs[b.g.n].clock == LastMoment(b.g.n, |b.g.script|)
  {
    var n := b.g.n;
    LastMomentIs(n, |b.g.script|);
    d := b;
    if n == 1 {
      assert AtRest(b.g.procs[1], true) && InChain(b.g.procs[1], |b.g.script|);
    } else {
      NextReader(b.g, n, n);
      d := ReadAll(b, n, n, 0, n - 1);
      assert AtRest(d.g.procs[n], true);
    }
  }

  /** An account that has stopped and heard everybody reports. */
  lemma ReadyToReport(g: Global, tk: Token, k: nat)
    requires Kept(g, tk) && 1 <= k <= g.n && AtRest(g.procs[k], true)
    requires forall x :: 1 <= x <= g.n && x != k ==> g.procs[k].doneMask[x]
    ensures Enabled(g, Step(k, Report))
  {
    assert ChildInv(g.procs[k], g.opening[k]) && Tallied(g.procs[k]);
    MarksComplete(g.procs[k].doneMask, k);
  }

  /** Every bank can come to a state where account n is about to report at the last moment,
      whatever its script, by searches as the program makes them. */
  lemma LastMomentReached(n: nat, script: seq<Order>, opening: seq<int>) returns (d: Search)
    requires n >= 1 && ValidScript(n, script) && |opening| == n + 1
    ensures Live(d) && d.g.n == n && d.g.script == script && d.g.opening == opening
    ensures Enabled(d.g, Step(n, Report)) && d.g.procs[n].clock == LastMoment(n, |script|)
  {
    OutsetLive(n, script, opening);
    d := ToStop(Outset(n, script, opening), None);
    d := TurnAll(d, n);
    d := SendsStop(d);
    d := ChainRuns(d, 0);
    d := ChainEnds(d);
    var tk := LiveKept(d);
    ReadyToReport(d.g, tk, n);
  }
}
