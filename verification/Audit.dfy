/** The final check of all account histories before they are printed. */
module Audit {
  import opened LedgerCells

  /** A history as received: the account it names and its cells. */
  datatype History = History(id: nat, cells: Cells)

  /** The histories received, in the order of the accounts. */
  function Table(collected: seq<Cells>): (all: seq<History>)
    ensures |all| == |collected|
    ensures forall a :: 0 <= a < |all| ==> all[a] == History(a + 1, collected[a])
  {
    seq(|collected|, a requires 0 <= a < |collected| => History(a + 1, collected[a]))
  }

  function MaxLength(all: seq<History>): nat {
    if all == [] then 0
    else
      var rest, last := MaxLength(all[..|all| - 1]), |all[|all| - 1].cells|;
      if last > rest then last else rest
  }

  lemma {:induction false} MaxLengthBounds(all: seq<History>)
    ensures forall a :: 0 <= a < |all| ==> |all[a].cells| <= MaxLength(all)
    ensures all != [] ==> exists a :: 0 <= a < |all| && |all[a].cells| == MaxLength(all)
  {
    if all != [] {
      var pre, last := all[..|all| - 1], |all| - 1;
      MaxLengthBounds(pre);
      assert forall a :: 0 <= a < last ==> all[a] == pre[a];
      if |all[last].cells| <= MaxLength(pre) && pre != [] {
        var a :| 0 <= a < last && |pre[a].cells| == MaxLength(pre);
        assert |all[a].cells| == MaxLength(all);
      } else {
        assert |all[last].cells| == MaxLength(all);
      }
    }
  }

  /** The last cell repeated, with its own time, up to `length`. */
  function Padded(l: Cells, length: nat): (r: Cells)
    requires l != []
    ensures |r| == if |l| < length then length else |l|
    ensures forall t :: 0 <= t < |l| ==> r[t] == l[t]
    ensures forall t :: |l| <= t < |r| ==> r[t] == l[|l| - 1].(time := t)
  {
    if length <= |l| then l
    else l + seq(length - |l|, k requires 0 <= k => l[|l| - 1].(time := |l| + k))
  }

  /** `initial[i]` is the opening balance of account i; slot 0 is the parent's. */
  function OpeningTotal(initial: seq<int>, k: nat): int
    requires k < |initial|
  {
    if k == 0 then 0 else OpeningTotal(initial, k - 1) + initial[k]
  }

  /** Money at time `t` in the first `k` padded histories. */
  function SliceTotal(all: seq<History>, t: nat, k: nat): int
    requires k <= |all| && forall a :: 0 <= a < |all| ==> t < |all[a].cells|
  {
    if k == 0 then 0 else SliceTotal(all, t, k - 1) + all[k - 1].cells[t].balance + all[k - 1].cells[t].pending
  }

  predicate OpensAs(h: History, a: nat, initial: seq<int>)
    requires a + 1 < |initial|
  {
    h.id == a + 1 && h.cells != [] && h.cells[0].balance == initial[a + 1]
  }

  predicate AllOpen(all: seq<History>, initial: seq<int>)
    requires |initial| == |all| + 1
  {
    forall a :: 0 <= a < |all| ==> OpensAs(all[a], a, initial)
  }

  predicate AllClosed(all: seq<History>)
    requires forall a :: 0 <= a < |all| ==> all[a].cells != []
  {
    forall a :: 0 <= a < |all| ==> all[a].cells[|all[a].cells| - 1].pending == 0
  }

  function PadAll(all: seq<History>): (r: seq<History>)
    requires forall a :: 0 <= a < |all| ==> all[a].cells != []
    ensures |r| == |all|
    ensures forall a :: 0 <= a < |all| ==> r[a] == History(all[a].id, Padded(all[a].cells, MaxLength(all)))
  {
    seq(|all|, a requires 0 <= a < |all| => History(all[a].id, Padded(all[a].cells, MaxLength(all))))
  }

  /** The first `k` histories padded to `length`. */
  function PadFirst(all: seq<History>, k: nat, length: nat): (r: seq<History>)
    requires k <= |all| && forall a :: 0 <= a < |all| ==> all[a].cells != []
    ensures |r| == |all|
    ensures forall a :: 0 <= a < |all| ==>
              r[a] == if a < k then History(all[a].id, Padded(all[a].cells, length)) else all[a]
  {
    seq(|all|, a requires 0 <= a < |all| => if a < k then History(all[a].id, Padded(all[a].cells, length)) else all[a])
  }

  predicate Stamped(all: seq<History>, t: nat)
    requires forall a :: 0 <= a < |all| ==> t < |all[a].cells|
  {
    forall a :: 0 <= a < |all| ==> all[a].cells[t].time == t && all[a].cells[t].pending >= 0
  }

  predicate SliceSound(all: seq<History>, t: nat, total: int)
    requires forall a :: 0 <= a < |all| ==> t < |all[a].cells|
  {
    Stamped(all, t) && SliceTotal(all, t, |all|) == total
  }

  predicate Level(all: seq<History>, length: nat) {
    forall a :: 0 <= a < |all| ==> |all[a].cells| == length
  }

  lemma PadLevels(all: seq<History>)
    requires forall a :: 0 <= a < |all| ==> all[a].cells != []
    ensures Level(PadAll(all), MaxLength(all))
  {
    MaxLengthBounds(all);
  }

  /** What the check demands of the histories it is given. */
  ghost predicate AuditOk(all: seq<History>, initial: seq<int>)
    requires |initial| == |all| + 1
  {
    && AllOpen(all, initial)
    && AllClosed(all)
    && (PadLevels(all);
        forall t: nat :: t < MaxLength(all) ==> SliceSound(PadAll(all), t, OpeningTotal(initial, |all|)))
  }

  /** The received histories in one table: 256 cells per account and a length each. */
  class AllHistory {
    const accounts: nat
    const ids: array<nat>
    const lengths: array<nat>
    const table: array2<Cell>
    ghost var Contents: seq<History>

    ghost predicate Shape()
      reads this`Contents, lengths
    {
      && ids.Length == lengths.Length == table.Length0 == |Contents| == accounts
      && table.Length1 == MAX_T + 1 && ids != lengths
      && forall a :: 0 <= a < accounts ==> lengths[a] <= UINT8_MAX
    }

    ghost predicate Holds(a: nat, h: History)
      reads ids, lengths, table, this`Contents
      requires Shape() && a < accounts
    {
      && h.id == ids[a] && |h.cells| == lengths[a]
      && forall t :: 0 <= t < |h.cells| ==> h.cells[t] == table[a, t]
    }

    ghost predicate Valid()
      reads this`Contents, ids, lengths, table
    {
      Shape() && forall a :: 0 <= a < accounts ==> Holds(a, Contents[a])
    }

    constructor (accounts: nat)
      ensures Valid() && this.accounts == accounts && fresh(ids) && fresh(lengths) && fresh(table)
      ensures Contents == seq(accounts, _ => History(0, []))
    {
      this.accounts := accounts;
      ids := new nat[accounts](_ => 0);
      lengths := new nat[accounts](_ => 0);
      table := new Cell[accounts, MAX_T + 1]((_, _) => Cell(0, 0, 0));
      Contents := seq(accounts, _ => History(0, []));
    }

    /** Copy a received history into its place. */
    method Store(account: nat, owner: nat, cells: Cells)
      requires Valid() && account < accounts && |cells| <= UINT8_MAX
      modifies ids, lengths, table, this`Contents
      ensures Valid() && Contents == old(Contents)[account := History(owner, cells)]
    {
      ids[account] := owner;
      lengths[account] := |cells|;
      forall t | 0 <= t < |cells| { table[account, t] := cells[t]; }
      Contents := Contents[account := History(owner, cells)];
      forall a | 0 <= a < accounts ensures Holds(a, Contents[a]) {
        if a != account { assert old(Holds(a, Contents[a])); }
      }
    }

    /** First pass: owners, opening balances, the common length and the total. */
    method CheckOpenings(initial: seq<int>) returns (ok: bool, length: nat, expected: int)
      requires Valid() && |initial| == accounts + 1
      ensures ok <==> forall a :: 0 <= a < accounts ==>
                        && Contents[a].id == a + 1 && Contents[a].cells != []
                        && Contents[a].cells[0].balance == initial[a + 1]
      ensures ok == AllOpen(Contents, initial)
      ensures ok ==> length == MaxLength(Contents) && expected == OpeningTotal(initial, accounts)
    {
      length, expected := 0, 0;
      for account := 0 to accounts
        invariant forall a :: 0 <= a < account ==> OpensAs(Contents[a], a, initial)
        invariant length == MaxLength(Contents[..account]) && expected == OpeningTotal(initial, account)
      {
        assert Holds(account, Contents[account]);
        if ids[account] != account + 1 || lengths[account] == 0 || table[account, 0].balance != initial[account + 1] {
          assert !OpensAs(Contents[account], account, initial);
          return false, 0, 0;
        }
        assert Contents[..account + 1][..account] == Contents[..account];
        if lengths[account] > length { length := lengths[account]; }
        expected := expected + initial[account + 1];
      }
      assert Contents[..accounts] == Contents;
      ok := true;
    }

    /** Repeat the last cell of one account up to `length`, each copy with its own time. */
    method PadAccount(account: nat, length: nat)
      requires Valid() && account < accounts && 1 <= lengths[account] <= length <= UINT8_MAX
      modifies lengths, table, this`Contents
      ensures Valid()
      ensures var h := old(Contents[account]);
              Contents == old(Contents)[account := History(h.id, Padded(h.cells, length))]
    {
      var oldLength := lengths[account];
      ghost var h := Contents[account];
      assert Holds(account, h);
      ghost var p := Padded(h.cells, length);
      for time := oldLength to length
        modifies table
        invariant forall t :: 0 <= t < time ==> table[account, t] == p[t]
        invariant forall a, t :: 0 <= a < accounts && a != account && 0 <= t <= MAX_T ==>
                    table[a, t] == old(table[a, t])
      {
        table[account, time] := table[account, oldLength - 1];
        table[account, time] := table[account, time].(time := time);
      }
      lengths[account] := length % 256;
      Contents := Contents[account := History(h.id, p)];
      forall a | 0 <= a < accounts ensures Holds(a, Contents[a]) {
        if a == account {
          assert |p| == length && Contents[a].cells == p;
        } else {
          assert old(Holds(a, Contents[a])) && Contents[a] == old(Contents[a]) && lengths[a] == old(lengths[a]);
        }
      }
    }

    /** Second pass: nothing may be pending at the end; bring all to the same length. */
    method PadHistories(length: nat) returns (ok: bool)
      requires Valid() && length == MaxLength(Contents) && length <= UINT8_MAX
      requires forall a :: 0 <= a < accounts ==> Contents[a].cells != []
      modifies lengths, table, this`Contents
      ensures Valid()
      ensures ok == AllClosed(old(Contents))
      ensures ok ==> Contents == PadAll(old(Contents))
    {
      ghost var all := Contents;
      MaxLengthBounds(all);
      for account := 0 to accounts
        invariant Valid()
        invariant forall a :: 0 <= a < account ==> all[a].cells[|all[a].cells| - 1].pending == 0
        invariant Contents == PadFirst(all, account, length)
      {
        assert Holds(account, Contents[account]);
        var oldLength := lengths[account];
        if table[account, oldLength - 1].pending != 0 { return false; }
        PadAccount(account, length);
      }
      assert Contents == PadAll(all);
      ok := true;
    }

    /** Third pass: every slice is stamped with its time and adds up. */
    method CheckSlices(length: nat, expected: int) returns (ok: bool)
      requires Valid() && Level(Contents, length) && length <= UINT8_MAX
      ensures ok <==> forall t: nat :: t < length ==> SliceSound(Contents, t, expected)
    {
      for time := 0 to length
        invariant forall t: nat :: t < time ==> SliceSound(Contents, t, expected)
      {
        var total := 0;
        for account := 0 to accounts
          invariant total == SliceTotal(Contents, time, account)
          invariant forall a :: 0 <= a < account ==>
                      Contents[a].cells[time].time == time && Contents[a].cells[time].pending >= 0
        {
          assert Holds(account, Contents[account]) && |Contents[account].cells| == length;
          var state := table[account, time];
          if state.time != time || state.pending < 0 {
            assert !Stamped(Contents, time) && !SliceSound(Contents, time, expected);
            return false;
          }
          total := total + (state.balance + state.pending);
        }
        if total != expected {
          assert !SliceSound(Contents, time, expected);
          return false;
        }
      }
      ok := true;
    }

    /** The whole check: accepted exactly when the histories are sound, and then all of
        them have been padded to the same length without touching what was there. */
    method Finish(initial: seq<int>) returns (ok: bool)
      requires Valid() && |initial| == accounts + 1
      modifies lengths, table, this`Contents
      ensures Valid()
      ensures ok == AuditOk(old(Contents), initial)
      ensures ok ==> AllOpen(old(Contents), initial) && Contents == PadAll(old(Contents))
    {
      ghost var all := Contents;
      var length, expected;
      ok, length, expected := CheckOpenings(initial);
      if !ok { return; }
      assert length <= UINT8_MAX by {
        MaxLengthBounds(all);
        assert forall a :: 0 <= a < accounts ==> Holds(a, all[a]);
      }
      assert forall a :: 0 <= a < accounts ==> OpensAs(all[a], a, initial);
      ok := PadHistories(length);
      if !ok { return; }
      PadLevels(all);
      ok := CheckSlices(length, expected);
    }
  }
}
