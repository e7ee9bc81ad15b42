/** Paths of a single process of the bank, and the frames written and taken along them. */
module BankPath {
  import opened Seqs
  import opened BankProcess
  import opened BankLimits

  type Posts = seq<(nat, Frame)>

  datatype Local = Nowhere | At(p: Proc, wire: Posts)

  /** An action the program can take: no limit cuts it short. */
  ghost predicate Lawful(p: Proc, a: Action, script: seq<Order>) {
    && Shaped(p) && p.clock >= 0 && Allowed(p, a, script) && !MeetsLimit(p, a)
    && forall o :: o in script ==> ValidOrder(o, p.n)
  }

  /** What one action writes. */
  function Post(p: Proc, a: Action): Posts {
    if a.Write? && p.out.Sending? && p.out.next != p.id then [(p.out.next, p.out.frame)] else []
  }

  /** Where a process stands after the given actions, with everything it has written. */
  ghost function Follow(start: Proc, path: seq<Action>, script: seq<Order>): (l: Local)
    ensures l.At? && Shaped(start) ==> Shaped(l.p) && l.p.id == start.id && l.p.n == start.n
  {
    if path == [] then At(start, [])
    else
      var a := path[|path| - 1];
      match Follow(start, path[..|path| - 1], script)
      case Nowhere => Nowhere
      case At(p, wire) => if Lawful(p, a, script) then At(Do(p, a, script), wire + Post(p, a)) else Nowhere
  }

  lemma FollowNext(start: Proc, path: seq<Action>, script: seq<Order>, a: Action)
    requires var l := Follow(start, path, script); l.At? && Lawful(l.p, a, script)
    ensures var l := Follow(start, path, script);
            Follow(start, path + [a], script) == At(Do(l.p, a, script), l.wire + Post(l.p, a))
  {
    assert (path + [a])[..|path|] == path;
  }

  /** A history never reaches beyond the clock, and from the report on it reaches exactly up
      to the time of the report. */
  predicate Reaches(p: Proc) {
    |p.ledger| <= p.clock + 1 && (p.pc.Reported? ==> |p.ledger| == p.clock)
  }

  lemma DoReaches(p: Proc, a: Action, script: seq<Order>)
    requires Shaped(p) && p.clock >= 0 && Allowed(p, a, script) && Reaches(p)
    requires forall o :: o in script ==> ValidOrder(o, p.n)
    ensures Reaches(Do(p, a, script))
  {
  }

  /** However frames arrive, the history of a process keeps up with its clock. */
  lemma {:induction false} FollowReaches(start: Proc, path: seq<Action>, script: seq<Order>)
    requires Reaches(start)
    ensures var l := Follow(start, path, script); l.At? ==> Reaches(l.p)
  {
    if path != [] {
      var before := Follow(start, path[..|path| - 1], script);
      FollowReaches(start, path[..|path| - 1], script);
      if before.At? && Lawful(before.p, path[|path| - 1], script) {
        DoReaches(before.p, path[|path| - 1], script);
      }
    }
  }

  /** The frames taken from peer `x` along a path. */
  function TakenFrom(path: seq<Action>, x: nat): seq<Frame> {
    if path == [] then []
    else
      var a := path[|path| - 1];
      TakenFrom(path[..|path| - 1], x) + (if a.Recv? && a.from == x then [a.msg] else [])
  }

  lemma TakenNext(path: seq<Action>, a: Action, x: nat)
    ensures TakenFrom(path + [a], x) == TakenFrom(path, x) + (if a.Recv? && a.from == x then [a.msg] else [])
  {
    assert (path + [a])[..|path|] == path;
  }

  /** What the write loop from `next` to `last` writes. */
  function Spill(m: Frame, next: nat, last: nat, id: nat): Posts
    decreases last + 1 - next
  {
    if next > last then []
    else (if next == id then [] else [(next, m)]) + Spill(m, next + 1, last, id)
  }

  lemma SpillOne(m: Frame, target: nat, id: nat)
    ensures Spill(m, target, target, id) == if target == id then [] else [(target, m)]
  {
    assert Spill(m, target + 1, target, id) == [];
  }

  function Spilled(p: Proc): Posts {
    if p.out.Sending? then Spill(p.out.frame, p.out.next, p.out.last, p.id) else []
  }

  function Writes(p: Proc): seq<Action>
    requires Shaped(p)
  {
    if p.out.Sending? then seq(p.out.last + 1 - p.out.next, _ => Write) else []
  }

  lemma FollowWrite(start: Proc, path: seq<Action>, script: seq<Order>, p: Proc, wire: Posts)
    requires Follow(start, path, script) == At(p, wire) && Lawful(p, Write, script)
    ensures Follow(start, path + [Write], script) == At(WriteNext(p), wire + Post(p, Write))
    ensures forall x :: TakenFrom(path + [Write], x) == TakenFrom(path, x)
  {
    FollowNext(start, path, script, Write);
    forall x: nat ensures TakenFrom(path + [Write], x) == TakenFrom(path, x) {
      TakenNext(path, Write, x);
      assert TakenFrom(path, x) + [] == TakenFrom(path, x);
    }
  }

  lemma WritesFirst(p: Proc)
    requires Shaped(p) && p.out.Sending?
    ensures Shaped(WriteNext(p)) && Writes(p) == [Write] + Writes(WriteNext(p))
    ensures Spilled(p) == Post(p, Write) + Spilled(WriteNext(p))
  {
    var q := WriteNext(p);
    assert Writes(p) == [Write] + Writes(q);
    assert Spill(p.out.frame, p.out.next, p.out.last, p.id) ==
           Post(p, Write) + Spill(p.out.frame, p.out.next + 1, p.out.last, p.id);
  }

  /** The write loop is a path of Write actions. */
  lemma {:induction false} FollowWrites(start: Proc, path: seq<Action>, script: seq<Order>, p: Proc, wire: Posts)
    requires Follow(start, path, script) == At(p, wire) && Shaped(p) && p.clock >= 0
    requires forall o :: o in script ==> ValidOrder(o, p.n)
    ensures Follow(start, path + Writes(p), script) == At(p.(out := Quiet), wire + Spilled(p))
    ensures forall x :: TakenFrom(path + Writes(p), x) == TakenFrom(path, x)
    decreases if p.out.Quiet? then 0 else p.out.last + 1 - p.out.next
  {
    if p.out.Quiet? {
      assert path + [] == path;
      assert wire + [] == wire;
    } else {
      FollowWrite(start, path, script, p, wire);
      FollowWrites(start, path + [Write], script, WriteNext(p), wire + Post(p, Write));
      WritesFirst(p);
      assert path + Writes(p) == (path + [Write]) + Writes(WriteNext(p));
      Regroup(wire, Post(p, Write), Spilled(WriteNext(p)));
    }
  }

  /** An action and the writes it starts. */
  ghost function Complete(p: Proc, a: Action, script: seq<Order>): seq<Action>
    requires Lawful(p, a, script)
  {
    [a] + Writes(Do(p, a, script))
  }

  lemma FollowComplete(start: Proc, path: seq<Action>, script: seq<Order>, p: Proc, wire: Posts, a: Action)
    requires Follow(start, path, script) == At(p, wire) && Lawful(p, a, script) && p.out.Quiet?
    ensures var q := Do(p, a, script);
            Follow(start, path + Complete(p, a, script), script) == At(q.(out := Quiet), wire + Spilled(q))
    ensures forall x :: TakenFrom(path + Complete(p, a, script), x) ==
                        TakenFrom(path, x) + (if a.Recv? && a.from == x then [a.msg] else [])
  {
    var q := Do(p, a, script);
    FollowNext(start, path, script, a);
    assert wire + [] == wire;
    FollowWrites(start, path + [a], script, q, wire);
    assert path + Complete(p, a, script) == (path + [a]) + Writes(q);
    forall x: nat
      ensures TakenFrom(path + [a], x) == TakenFrom(path, x) + (if a.Recv? && a.from == x then [a.msg] else [])
    {
      TakenNext(path, a, x);
    }
  }
}
