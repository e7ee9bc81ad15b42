/** The history buffer of one account, updated in place. */
module LedgerBuffer {
  import opened Wire
  import opened LedgerCells

  class Ledger {
    const id: nat
    const history: array<Cell>
    var length: nat
    /** The length field of the wire format: one byte. */
    var wireLength: nat

    ghost predicate Valid()
      reads this, history
    {
      history.Length == MAX_T + 1 && 1 <= length <= UINT8_MAX && wireLength == length
    }

    ghost function Cells(): (l: Cells)
      reads this, history
      requires Valid()
      ensures l != [] && |l| == length
    {
      history[..length]
    }

    constructor (id: nat, balance: int)
      ensures Valid() && fresh(history) && this.id == id && Cells() == Opened(balance)
    {
      this.id := id;
      history := new Cell[MAX_T + 1](_ => Cell(0, 0, 0));
      length, wireLength := 1, 1;
      new;
      history[0] := history[0].(balance := balance);
    }

    /** Refused outside 0..254: the byte-sized length cannot represent 256 states. */
    method Extend(time: int) returns (ok: bool)
      requires Valid()
      modifies this`length, this`wireLength, history
      ensures Valid()
      ensures ok <==> 0 <= time <= 254
      ensures ok ==> wireLength == |Cells()| <= 255
      ensures Cells() == if ok then Extended(old(Cells()), time) else old(Cells())
    {
      if time < 0 || time >= UINT8_MAX || time > MAX_T { return false; }
      ghost var l := Cells();
      while length <= time
        invariant history.Length == MAX_T + 1 && 1 <= length <= UINT8_MAX
        invariant Extended(history[..length], time) == Extended(l, time)
      {
        ghost var m := history[..length];
        history[length] := Cell(history[length - 1].balance, length, 0);
        length := length + 1;
        assert history[..length] == m + [Cell(m[|m| - 1].balance, |m|, 0)];
      }
      wireLength := length % 256;
      ok := true;
    }

    method Debit(time: int, amount: int) returns (ok: bool)
      requires Valid()
      modifies this`length, this`wireLength, history
      ensures Valid()
      ensures ok <==> 0 <= time <= 254 && -32768 <= Extended(old(Cells()), time)[time].balance - amount <= 32767
      ensures ok ==> Cells() == Debited(old(Cells()), time, amount)
    {
      ok := Extend(time);
      if !ok { return; }
      var value := history[time].balance - amount;
      if value < INT16_MIN || value > INT16_MAX { return false; }
      history[time] := history[time].(balance := value);
    }

    /** Rewrites the past: the money was pending from `sent` until `received`. */
    method Credit(sent: int, received: int, amount: int) returns (ok: bool)
      requires Valid()
      modifies this`length, this`wireLength, history
      ensures Valid()
      ensures ok ==> 0 <= sent < received <= 254 && amount >= 0
      ensures 0 <= sent < received <= 254 && amount >= 0 ==>
                var e := Extended(old(Cells()), received);
                ok <==> -32768 <= e[received].balance + amount <= 32767
                        && forall t :: sent <= t < received ==> -32768 <= e[t].pending + amount <= 32767
      ensures ok ==> Cells() == Credited(old(Cells()), sent, received, amount)
    {
      if sent < 0 || sent >= received || amount < 0 { return false; }
      ok := Extend(received);
      if !ok { return; }
      ghost var e := Cells();
      var time := sent;
      while time < received
        invariant sent <= time <= received && Valid() && length == |e|
        invariant forall t :: sent <= t < time ==>
                    Int16(e[t].pending + amount) && history[t] == e[t].(pending := e[t].pending + amount)
        invariant forall t :: 0 <= t < length && !(sent <= t < time) ==> history[t] == e[t]
      {
        var value := history[time].pending + amount;
        if value < INT16_MIN || value > INT16_MAX { return false; }
        history[time] := history[time].(pending := value);
        time := time + 1;
      }
      var value := history[received].balance + amount;
      if value < INT16_MIN || value > INT16_MAX { return false; }
      history[received] := history[received].(balance := value);
      ok := true;
    }
  }
}
