/** What it means for the received histories to pass the final check. */
module AuditMeaning {
  import opened LedgerCells
  import opened Audit

  predicate NoneEmpty(all: seq<History>) {
    forall a :: 0 <= a < |all| ==> all[a].cells != []
  }

  predicate StampedCells(l: Cells) {
    forall t :: 0 <= t < |l| ==> l[t].time == t && l[t].pending >= 0
  }

  /** What the first `k` accounts are worth at `t`, whatever the length of their histories. */
  function WorthTotal(all: seq<History>, t: nat, k: nat): int
    requires k <= |all| && NoneEmpty(all)
  {
    if k == 0 then 0 else WorthTotal(all, t, k - 1) + Worth(all[k - 1].cells, t)
  }

  lemma {:induction false} SliceIsWorth(all: seq<History>, t: nat, k: nat)
    requires NoneEmpty(all) && AllClosed(all) && t < MaxLength(all) && k <= |all|
    ensures Level(PadAll(all), MaxLength(all))
    ensures SliceTotal(PadAll(all), t, k) == WorthTotal(all, t, k)
  {
    PadLevels(all);
    if k > 0 { SliceIsWorth(all, t, k - 1); }
  }

  /** Past the longest history nothing changes any more. */
  lemma {:induction false} WorthSettles(all: seq<History>, t: nat, k: nat)
    requires NoneEmpty(all) && AllClosed(all) && t >= MaxLength(all) - 1 >= 0 && k <= |all|
    ensures WorthTotal(all, t, k) == WorthTotal(all, MaxLength(all) - 1, k)
  {
    if k > 0 {
      WorthSettles(all, t, k - 1);
      MaxLengthBounds(all);
    }
  }

  predicate AllStamped(all: seq<History>) {
    forall a :: 0 <= a < |all| ==> StampedCells(all[a].cells)
  }

  lemma StampsPadded(all: seq<History>, t: nat)
    requires NoneEmpty(all) && Level(PadAll(all), MaxLength(all)) && t < MaxLength(all)
    requires AllClosed(all) && AllStamped(all)
    ensures Stamped(PadAll(all), t)
  {
    forall a | 0 <= a < |all| ensures PadAll(all)[a].cells[t].time == t && PadAll(all)[a].cells[t].pending >= 0 {
      assert StampedCells(all[a].cells);
    }
  }

  lemma StampsOriginal(all: seq<History>, a: nat, t: nat)
    requires NoneEmpty(all) && Level(PadAll(all), MaxLength(all)) && a < |all| && t < |all[a].cells|
    requires t < MaxLength(all) ==> Stamped(PadAll(all), t)
    ensures all[a].cells[t].time == t && all[a].cells[t].pending >= 0
  {
    MaxLengthBounds(all);
    assert PadAll(all)[a].cells[t] == all[a].cells[t];
  }

  ghost predicate WorthKept(all: seq<History>, initial: seq<int>)
    requires NoneEmpty(all) && |initial| == |all| + 1
  {
    forall t: nat :: WorthTotal(all, t, |all|) == OpeningTotal(initial, |all|)
  }

  lemma SliceKept(all: seq<History>, initial: seq<int>, t: nat)
    requires NoneEmpty(all) && AllClosed(all) && |initial| == |all| + 1 && WorthKept(all, initial)
    requires t < MaxLength(all)
    ensures Level(PadAll(all), MaxLength(all))
    ensures SliceTotal(PadAll(all), t, |all|) == OpeningTotal(initial, |all|)
  {
    SliceIsWorth(all, t, |all|);
  }

  lemma WorthFromSlices(all: seq<History>, initial: seq<int>, t: nat)
    requires NoneEmpty(all) && AllClosed(all) && |initial| == |all| + 1
    requires Level(PadAll(all), MaxLength(all))
    requires forall t: nat :: t < MaxLength(all) ==> SliceSound(PadAll(all), t, OpeningTotal(initial, |all|))
    ensures WorthTotal(all, t, |all|) == OpeningTotal(initial, |all|)
  {
    MaxLengthBounds(all);
    if all != [] {
      var u := if t < MaxLength(all) then t else MaxLength(all) - 1;
      assert SliceSound(PadAll(all), u, OpeningTotal(initial, |all|));
      SliceIsWorth(all, u, |all|);
      if u != t { WorthSettles(all, t, |all|); }
    }
  }

  lemma OpenNotEmpty(all: seq<History>, initial: seq<int>)
    requires |initial| == |all| + 1 && AllOpen(all, initial)
    ensures NoneEmpty(all)
  {
    forall a | 0 <= a < |all| ensures all[a].cells != [] { assert OpensAs(all[a], a, initial); }
  }

  ghost predicate SoundHistories(all: seq<History>, initial: seq<int>)
    requires |initial| == |all| + 1
  {
    && (forall a :: 0 <= a < |all| ==>
          all[a].id == a + 1 && all[a].cells != [] && all[a].cells[0].balance == initial[a + 1])
    && (forall a :: 0 <= a < |all| ==> all[a].cells[|all[a].cells| - 1].pending == 0)
    && AllStamped(all) && WorthKept(all, initial)
  }

  lemma SoundIsAccepted(all: seq<History>, initial: seq<int>)
    requires |initial| == |all| + 1 && SoundHistories(all, initial)
    ensures AuditOk(all, initial)
  {
    assert forall a :: 0 <= a < |all| ==> OpensAs(all[a], a, initial);
    PadLevels(all);
    forall t: nat | t < MaxLength(all) ensures SliceSound(PadAll(all), t, OpeningTotal(initial, |all|)) {
      StampsPadded(all, t);
      SliceKept(all, initial, t);
    }
  }

  lemma AcceptedIsSound(all: seq<History>, initial: seq<int>)
    requires |initial| == |all| + 1 && AuditOk(all, initial)
    ensures SoundHistories(all, initial)
  {
    OpenNotEmpty(all, initial);
    assert forall a :: 0 <= a < |all| ==> OpensAs(all[a], a, initial);
    PadLevels(all);
    forall t: nat ensures WorthTotal(all, t, |all|) == OpeningTotal(initial, |all|) {
      WorthFromSlices(all, initial, t);
    }
    forall a | 0 <= a < |all| ensures StampedCells(all[a].cells) {
      forall t: nat | t < |all[a].cells| ensures all[a].cells[t].time == t && all[a].cells[t].pending >= 0 {
        if t < MaxLength(all) { assert SliceSound(PadAll(all), t, OpeningTotal(initial, |all|)); }
        StampsOriginal(all, a, t);
      }
    }
  }

  /** The check accepts exactly the histories that belong to their accounts, open with
      the right balances, end with nothing pending, stamp every cell with its own time,
      and keep the total at every time whatsoever, also where only some of the histories
      reach. */
  lemma Meaning(all: seq<History>, initial: seq<int>)
    requires |initial| == |all| + 1
    ensures AuditOk(all, initial) <==> SoundHistories(all, initial)
  {
    if AuditOk(all, initial) { AcceptedIsSound(all, initial); }
    if SoundHistories(all, initial) { SoundIsAccepted(all, initial); }
  }
}
