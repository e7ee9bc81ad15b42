/** Sums over sequences. */
module Sums {
  function Sum(s: seq<int>): int {
    if s == [] then 0 else Sum(s[..|s| - 1]) + s[|s| - 1]
  }

  lemma {:induction false} SumUpdate(s: seq<int>, i: nat, v: int)
    requires i < |s|
    ensures Sum(s[i := v]) == Sum(s) - s[i] + v
  {
    var t, last := s[i := v], |s| - 1;
    if i == last {
      assert t[..last] == s[..last];
    } else {
      assert t[..last] == s[..last][i := v];
      SumUpdate(s[..last], i, v);
    }
  }

  lemma {:induction false} SumAppend(s: seq<int>, v: int)
    ensures Sum(s + [v]) == Sum(s) + v
  {
    assert (s + [v])[..|s|] == s;
  }

  lemma {:induction false} SumZero(s: seq<int>)
    requires forall i :: 0 <= i < |s| ==> s[i] == 0
    ensures Sum(s) == 0
  {
    if s != [] { SumZero(s[..|s| - 1]); }
  }

  lemma {:induction false} SumNonNegative(s: seq<int>)
    requires forall i :: 0 <= i < |s| ==> s[i] >= 0
    ensures Sum(s) >= 0
  {
    if s != [] { SumNonNegative(s[..|s| - 1]); }
  }

  lemma SumShift(s: seq<int>, t: seq<int>, i: nat, v: int)
    requires |s| == |t| && i < |s| && t[i] == s[i] + v
    requires forall j :: 0 <= j < |s| && j != i ==> t[j] == s[j]
    ensures Sum(t) == Sum(s) + v
  {
    assert t == s[i := s[i] + v];
    SumUpdate(s, i, s[i] + v);
  }

  lemma SumExchange(s: seq<int>, t: seq<int>, i: nat, v: int, j: nat, w: int)
    requires |s| == |t| && i < |s| && j < |s| && i != j && t[i] == s[i] + v && t[j] == s[j] + w
    requires forall x :: 0 <= x < |s| && x != i && x != j ==> t[x] == s[x]
    ensures Sum(t) == Sum(s) + v + w
  {
    var mid := s[i := t[i]];
    SumShift(s, mid, i, v);
    SumShift(mid, t, j, w);
  }
}
