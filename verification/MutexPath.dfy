/** Paths of a single process, and the frames written along them. */
module MutexPath {
  import opened Seqs
  import opened Wire
  import opened MutexProcess

  type Frames = seq<(nat, Msg)>

  datatype Local = Nowhere | At(p: Proc, wire: Frames)

  /** Where a process stands after the given actions, with everything it has written. */
  ghost function Follow(start: Proc, path: seq<Action>): (l: Local)
    ensures l.At? && Shaped(start) ==> Shaped(l.p) && l.p.id == start.id && l.p.n == start.n
  {
    if path == [] then At(start, [])
    else
      var a := path[|path| - 1];
      match Follow(start, path[..|path| - 1])
      case Nowhere => Nowhere
      case At(p, wire) =>
        if Shaped(p) && Allowed(p, a)
        then At(Do(p, a), wire + (if a.Write? && p.out.next != p.id then [(p.out.next, p.out.frame)] else []))
        else Nowhere
  }

  lemma FollowNext(start: Proc, path: seq<Action>, a: Action)
    requires var l := Follow(start, path); l.At? && Shaped(l.p) && Allowed(l.p, a)
    ensures var l := Follow(start, path);
            Follow(start, path + [a]) ==
            At(Do(l.p, a),
               l.wire + (if a.Write? && l.p.out.next != l.p.id then [(l.p.out.next, l.p.out.frame)] else []))
  {
    assert (path + [a])[..|path|] == path;
  }

  /** Deliveries along a path. */
  function Deliveries(path: seq<Action>): Frames {
    if path == [] then []
    else
      var a := path[|path| - 1];
      Deliveries(path[..|path| - 1]) + (if a.Recv? then [(a.from, a.msg)] else [])
  }

  lemma DeliveriesNext(path: seq<Action>, a: Action)
    ensures Deliveries(path + [a]) == Deliveries(path) + (if a.Recv? then [(a.from, a.msg)] else [])
  {
    assert (path + [a])[..|path|] == path;
  }

  /** The trace lines along a path. */
  ghost function Lines(start: Proc, path: seq<Action>): seq<Event> {
    if path == [] then []
    else
      var a, before := path[|path| - 1], path[..|path| - 1];
      match Follow(start, before)
      case Nowhere => []
      case At(p, _) => Lines(start, before) + (if Shaped(p) then NewEvents(p, a) else [])
  }

  lemma LinesNext(start: Proc, path: seq<Action>, a: Action)
    requires Follow(start, path).At? && Shaped(Follow(start, path).p)
    ensures Lines(start, path + [a]) == Lines(start, path) + NewEvents(Follow(start, path).p, a)
  {
    assert (path + [a])[..|path|] == path;
  }

  /** The process after its write loop has run to the end. */
  function Drained(p: Proc): (q: Proc)
    requires Shaped(p)
    ensures Shaped(q) && q.id == p.id && q.n == p.n && q.out.Quiet?
    ensures q == p.(out := Quiet, stats := q.stats) && q.stats == p.stats.(sent := q.stats.sent)
    decreases if p.out.Quiet? then 0 else p.out.last + 1 - p.out.next
  {
    if p.out.Quiet? then p else Drained(WriteNext(p))
  }

  /** What one iteration of that loop writes, and what all of them write. */
  function Piece(p: Proc): Frames
    requires p.out.Sending?
  {
    if p.out.next == p.id then [] else [(p.out.next, p.out.frame)]
  }

  function Spilled(p: Proc): Frames
    requires Shaped(p)
    decreases if p.out.Quiet? then 0 else p.out.last + 1 - p.out.next
  {
    if p.out.Quiet? then [] else Piece(p) + Spilled(WriteNext(p))
  }

  /** The write loop looks at the id, the frame and the counters only. */
  lemma {:induction false} WritesIgnoreTheRest(p: Proc, q: Proc)
    requires Shaped(p) && Shaped(q) && p.id == q.id && p.out == q.out && p.stats == q.stats
    ensures Drained(p).stats == Drained(q).stats && Spilled(p) == Spilled(q)
    decreases if p.out.Quiet? then 0 else p.out.last + 1 - p.out.next
  {
    if p.out.Sending? { WritesIgnoreTheRest(WriteNext(p), WriteNext(q)); }
  }

  function Writes(p: Proc): seq<Action>
    requires Shaped(p)
    decreases if p.out.Quiet? then 0 else p.out.last + 1 - p.out.next
  {
    if p.out.Quiet? then [] else [Write] + Writes(WriteNext(p))
  }

  lemma FollowWrite(start: Proc, path: seq<Action>, p: Proc, wire: Frames)
    requires Follow(start, path) == At(p, wire) && Shaped(p) && p.out.Sending?
    ensures Follow(start, path + [Write]) == At(WriteNext(p), wire + Piece(p))
    ensures Deliveries(path + [Write]) == Deliveries(path) && Lines(start, path + [Write]) == Lines(start, path)
  {
    LinesNext(start, path, Write);
    assert Lines(start, path) + [] == Lines(start, path);
    FollowNext(start, path, Write);
    DeliveriesNext(path, Write);
    assert wire + [] == wire;
  }

  lemma WritesFirst(p: Proc)
    requires Shaped(p) && p.out.Sending?
    ensures Shaped(WriteNext(p)) && Writes(p) == [Write] + Writes(WriteNext(p))
    ensures Drained(p) == Drained(WriteNext(p)) && Spilled(p) == Piece(p) + Spilled(WriteNext(p))
  {
  }

  lemma WritesJoin(path: seq<Action>, p: Proc, wire: Frames)
    requires Shaped(p) && p.out.Sending?
    ensures var q := WriteNext(p);
            && Shaped(q) && Drained(p) == Drained(q) && path + Writes(p) == (path + [Write]) + Writes(q)
            && wire + Spilled(p) == (wire + Piece(p)) + Spilled(q)
  {
    WritesFirst(p);
    Regroup(path, [Write], Writes(WriteNext(p)));
    Regroup(wire, Piece(p), Spilled(WriteNext(p)));
  }

  /** The write loop is a path of Write actions. */
  lemma {:induction false} FollowWrites(start: Proc, path: seq<Action>, p: Proc, wire: Frames)
    requires Follow(start, path) == At(p, wire) && Shaped(p)
    ensures Follow(start, path + Writes(p)) == At(Drained(p), wire + Spilled(p))
    ensures Deliveries(path + Writes(p)) == Deliveries(path) && Lines(start, path + Writes(p)) == Lines(start, path)
    decreases if p.out.Quiet? then 0 else p.out.last + 1 - p.out.next
  {
    if p.out.Quiet? {
      assert path + [] == path;
      assert wire + [] == wire;
    } else {
      var q := WriteNext(p);
      FollowWrite(start, path, p, wire);
      FollowWrites(start, path + [Write], q, wire + Piece(p));
      WritesJoin(path, p, wire);
    }
  }

  /** An action and the writes it starts. */
  function Complete(p: Proc, a: Action): seq<Action>
    requires Shaped(p) && Allowed(p, a)
  {
    [a] + Writes(Do(p, a))
  }

  lemma FollowComplete(start: Proc, path: seq<Action>, p: Proc, wire: Frames, a: Action)
    requires Follow(start, path) == At(p, wire) && Shaped(p) && p.out.Quiet? && Allowed(p, a)
    ensures Follow(start, path + Complete(p, a)) == At(Drained(Do(p, a)), wire + Spilled(Do(p, a)))
    ensures Deliveries(path + Complete(p, a)) == Deliveries(path) + (if a.Recv? then [(a.from, a.msg)] else [])
    ensures Lines(start, path + Complete(p, a)) == Lines(start, path) + NewEvents(p, a)
  {
    LinesNext(start, path, a);
    FollowNext(start, path, a);
    DeliveriesNext(path, a);
    assert wire + [] == wire;
    FollowWrites(start, path + [a], Do(p, a), wire);
    Regroup(path, [a], Writes(Do(p, a)));
  }
}
