/** The order in which peers are served: a cursor that goes round all process ids, the
    own one left out, and starts the next search behind the peer it last served. */
module RoundRobin {
  datatype Found = Nobody | Peer(id: nat)

  function Next(cursor: nat, count: nat): (r: nat)
    requires cursor < count
    ensures r == if cursor + 1 == count then 0 else cursor + 1
  {
    (cursor + 1) % count
  }

  /** The first ready peer among the next `left` ids from the cursor on. */
  function Scan(ready: seq<bool>, own: nat, cursor: nat, left: nat): (r: Found)
    requires cursor < |ready|
    ensures r.Peer? ==> r.id < |ready| && r.id != own && ready[r.id]
    decreases left
  {
    if left == 0 then Nobody
    else if cursor != own && ready[cursor] then Peer(cursor)
    else Scan(ready, own, Next(cursor, |ready|), left - 1)
  }

  /** A search that has looked at the first `scanned` ids from `start` without success. */
  predicate Searching(ready: seq<bool>, own: nat, start: nat, cursor: nat, scanned: nat) {
    && start < |ready| && cursor < |ready| && scanned <= |ready|
    && cursor == (if start + scanned < |ready| then start + scanned else start + scanned - |ready|)
    && Scan(ready, own, start, |ready|) == Scan(ready, own, cursor, |ready| - scanned)
  }

  lemma SearchOn(ready: seq<bool>, own: nat, start: nat, cursor: nat, scanned: nat)
    requires Searching(ready, own, start, cursor, scanned) && scanned < |ready|
    ensures if cursor != own && ready[cursor] then Scan(ready, own, start, |ready|) == Peer(cursor)
            else Searching(ready, own, start, Next(cursor, |ready|), scanned + 1)
    ensures (cursor + 1) % |ready| == Next(cursor, |ready|)
  {
  }

  /** Steps from the cursor to `peer`, going round. */
  function Distance(cursor: nat, peer: nat, count: nat): (r: nat)
    requires cursor < count && peer < count
    ensures r < count && (r == 0 <==> cursor == peer)
  {
    if cursor <= peer then peer - cursor else peer + count - cursor
  }

  /** Peers that come before `peer`. */
  function Ahead(cursor: nat, peer: nat, own: nat, count: nat): nat
    requires cursor < count && peer < count
    decreases Distance(cursor, peer, count)
  {
    if cursor == peer then 0
    else (if cursor == own then 0 else 1) + Ahead(Next(cursor, count), peer, own, count)
  }

  /** Every id on the way counts once, except the own one. */
  lemma {:induction false} AheadIs(cursor: nat, peer: nat, own: nat, count: nat)
    requires cursor < count && peer < count && own < count && own != peer
    ensures Ahead(cursor, peer, own, count) ==
            Distance(cursor, peer, count)
            - (if Distance(cursor, own, count) < Distance(cursor, peer, count) then 1 else 0)
    decreases Distance(cursor, peer, count)
  {
    if cursor != peer { AheadIs(Next(cursor, count), peer, own, count); }
  }

  /** Nobody waits behind more than all the other peers. */
  lemma AheadBounded(cursor: nat, peer: nat, own: nat, count: nat)
    requires cursor < count && peer < count && own < count && own != peer
    ensures Ahead(cursor, peer, own, count) <= count - 2
  {
    AheadIs(cursor, peer, own, count);
  }

  /** A search that ends at another peer brings the cursor closer to a waiting one. */
  lemma {:induction false} ScanApproaches(ready: seq<bool>, own: nat, cursor: nat, left: nat, peer: nat)
    requires cursor < |ready| && peer < |ready| && peer != own && ready[peer]
    requires left > Distance(cursor, peer, |ready|)
    ensures var r := Scan(ready, own, cursor, left);
            r.Peer? && (r.id != peer ==>
              Ahead(Next(r.id, |ready|), peer, own, |ready|) < Ahead(cursor, peer, own, |ready|))
    decreases left
  {
    if !(cursor != own && ready[cursor]) {
      ScanApproaches(ready, own, Next(cursor, |ready|), left - 1, peer);
    }
  }
}
