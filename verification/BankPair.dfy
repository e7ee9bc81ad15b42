/** Which frames are under way on one link, and how sending and receiving change that. */
module BankPair {
  import opened Wire
  import opened BankProcess

  /** One flag per kind of frame; `token` is the transfer in progress, if it is here. */
  datatype View = View(started: bool, token: seq<Kind>, stop: bool, done: bool, history: bool)

  function Kinds(f: seq<Frame>): seq<Kind> {
    if f == [] then [] else [f[0].kind] + Kinds(f[1..])
  }

  lemma {:induction false} KindsAppend(f: seq<Frame>, m: Frame)
    ensures Kinds(f + [m]) == Kinds(f) + [m.kind]
  {
    if f == [] {
      assert f + [m] == [m];
    } else {
      assert (f + [m])[1..] == f[1..] + [m];
      KindsAppend(f[1..], m);
    }
  }

  lemma {:induction false} KindsPresent(f: seq<Frame>)
    ensures |Kinds(f)| == |f|
    ensures forall m :: m in f ==> m.kind in Kinds(f)
  {
    if f != [] {
      KindsPresent(f[1..]);
      assert f == [f[0]] + f[1..];
    }
  }

  predicate TokenShape(v: View) {
    v.token == [] || v.token == [TRANSFER] || v.token == [ACK]
  }

  /** The frames of a link, in the only order they can have been sent in. */
  function Expected(v: View): seq<Kind> {
    (if v.started then [STARTED] else []) + v.token + (if v.stop then [STOP] else [])
    + (if v.done then [DONE] else []) + (if v.history then [BALANCE_HISTORY] else [])
  }

  lemma SendStarted(v: View, f: seq<Frame>, m: Frame)
    requires Kinds(f) == Expected(v) && !v.started && v.token == [] && !v.stop && !v.done && !v.history
    requires m.kind.STARTED?
    ensures Kinds(f + [m]) == Expected(v.(started := true))
  {
    KindsAppend(f, m);
  }

  lemma SendToken(v: View, f: seq<Frame>, m: Frame)
    requires Kinds(f) == Expected(v) && v.token == [] && !v.stop && !v.done && !v.history
    ensures Kinds(f + [m]) == Expected(v.(token := [m.kind]))
  {
    KindsAppend(f, m);
    assert Expected(v.(token := [m.kind])) == Expected(v) + [m.kind];
  }

  lemma SendStop(v: View, f: seq<Frame>, m: Frame)
    requires Kinds(f) == Expected(v) && !v.stop && !v.done && !v.history && m.kind.STOP?
    ensures Kinds(f + [m]) == Expected(v.(stop := true))
  {
    KindsAppend(f, m);
    assert Expected(v.(stop := true)) == Expected(v) + [STOP];
  }

  lemma SendDone(v: View, f: seq<Frame>, m: Frame)
    requires Kinds(f) == Expected(v) && !v.done && !v.history && m.kind.DONE?
    ensures Kinds(f + [m]) == Expected(v.(done := true))
  {
    KindsAppend(f, m);
    assert Expected(v.(done := true)) == Expected(v) + [DONE];
  }

  lemma SendHistory(v: View, f: seq<Frame>, m: Frame)
    requires Kinds(f) == Expected(v) && !v.history && m.kind.BALANCE_HISTORY?
    ensures Kinds(f + [m]) == Expected(v.(history := true))
  {
    KindsAppend(f, m);
    assert Expected(v.(history := true)) == Expected(v) + [BALANCE_HISTORY];
  }

  /** The view after the first frame has been taken off the link. */
  function Rest(v: View): View {
    if v.started then v.(started := false)
    else if v.token != [] then v.(token := [])
    else if v.stop then v.(stop := false)
    else if v.done then v.(done := false)
    else v.(history := false)
  }

  lemma TakeFirst(v: View, f: seq<Frame>)
    requires Kinds(f) == Expected(v) && f != [] && TokenShape(v)
    ensures Kinds(f[1..]) == Expected(Rest(v))
    ensures f[0].kind == if v.started then STARTED
                         else if v.token != [] then v.token[0]
                         else if v.stop then STOP
                         else if v.done then DONE
                         else BALANCE_HISTORY
    ensures !v.started && v.token == [] && !v.stop && !v.done ==> v.history
  {
    assert Kinds(f)[1..] == Kinds(f[1..]);
    assert Expected(Rest(v)) == Expected(v)[1..];
  }

  lemma TransferNeedsToken(v: View, f: seq<Frame>)
    requires Kinds(f) == Expected(v)
    ensures v.token == [] ==> forall m :: m in f ==> !m.kind.TRANSFER? && !m.kind.ACK?
  {
    KindsPresent(f);
  }
}
