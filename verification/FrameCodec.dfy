/** What the two protocols put on the wire: message types as numbers, transfer orders and
    histories as bytes, and back. */
module FrameCodec {
  import opened Wire
  import opened Framing
  import opened LedgerCells
  import opened BankProcess

  function Code(kind: Kind): (c: int)
    ensures 0 <= c <= 8
  {
    match kind
    case STARTED => 0
    case DONE => 1
    case ACK => 2
    case STOP => 3
    case TRANSFER => 4
    case BALANCE_HISTORY => 5
    case CS_REQUEST => 6
    case CS_REPLY => 7
    case CS_RELEASE => 8
  }

  datatype Known = Unknown | Type(kind: Kind)

  function KindOf(c: int): Known {
    match c
    case 0 => Type(STARTED)
    case 1 => Type(DONE)
    case 2 => Type(ACK)
    case 3 => Type(STOP)
    case 4 => Type(TRANSFER)
    case 5 => Type(BALANCE_HISTORY)
    case 6 => Type(CS_REQUEST)
    case 7 => Type(CS_REPLY)
    case 8 => Type(CS_RELEASE)
    case _ => Unknown
  }

  /** What a packet says to one of the protocols, if it says anything. */
  datatype Meaning<T> = Nothing | Means(value: T)

  // ---------- messages of the mutual exclusion ----------

  /** The frame of a message; `text` is what it says, only its length matters. */
  function PacketOf(m: Msg, text: Bytes): Packet
    requires |text| == m.size
  {
    Packet(Code(m.kind), m.ts, text)
  }

  function MsgOf(p: Packet): Meaning<Msg> {
    if KindOf(p.kind).Type? then Means(Msg(KindOf(p.kind).kind, p.time, |p.payload|)) else Nothing
  }

  /** A packet stands for a message exactly when it is one of its encodings. */
  lemma MsgBack(m: Msg, p: Packet)
    ensures MsgOf(p) == Means(m) <==> |p.payload| == m.size && p == PacketOf(m, p.payload)
  {
  }

  // ---------- payloads of the bank ----------

  const ORDER_SIZE: nat := 4
  const CELL_SIZE: nat := 6
  const HISTORY_HEAD: nat := 2

  predicate Id(x: int) { 0 <= x < 128 }

  predicate CellFits(c: Cell) { Int16(c.balance) && Int16(c.time) && Int16(c.pending) }

  predicate CellsFit(l: Cells) { forall c :: c in l ==> CellFits(c) }

  /** What the fields of the structures can hold. */
  predicate PayloadFits(p: Payload) {
    match p
    case Empty => true
    case Text(size) => size <= MAX_PAYLOAD
    case Transfer(o) => Id(o.src) && Id(o.dst) && Int16(o.amount)
    case Balances(owner, cells) => Id(owner) && |cells| <= UINT8_MAX && CellsFit(cells)
  }

  function CellBytes(c: Cell): (b: Bytes)
    requires CellFits(c)
    ensures |b| == CELL_SIZE
  {
    Word(c.balance % 65536) + Word(c.time % 65536) + Word(c.pending % 65536)
  }

  function CellsBytes(l: Cells): (b: Bytes)
    requires CellsFit(l)
    ensures |b| == CELL_SIZE * |l|
  {
    if l == [] then [] else CellBytes(l[0]) + CellsBytes(l[1..])
  }

  function CellOf(b: Bytes): Cell
    requires |b| >= CELL_SIZE
  {
    Cell(Signed(Field(b, 0)), Signed(Field(b, 2)), Signed(Field(b, 4)))
  }

  function CellsOf(b: Bytes, count: nat): (l: Cells)
    requires |b| >= CELL_SIZE * count
    ensures |l| == count
  {
    if count == 0 then [] else [CellOf(b)] + CellsOf(b[CELL_SIZE..], count - 1)
  }

  /** The bytes of a payload; `text` is what a status line says. */
  function PayloadBytes(p: Payload, text: Bytes): Bytes
    requires PayloadFits(p)
  {
    match p
    case Empty => []
    case Text(_) => text
    case Transfer(o) => [o.src as Byte, o.dst as Byte] + Word(o.amount % 65536)
    case Balances(owner, cells) => [owner as Byte, |cells| as Byte] + CellsBytes(cells)
  }

  /** An 8-bit id; a negative one is no account's, like 0. */
  function IdOf(x: Byte): nat { if x < 128 then x else 0 }

  function OrderOf(b: Bytes): Order
    requires |b| == ORDER_SIZE
  {
    Order(IdOf(b[0]), IdOf(b[1]), Signed(Field(b, 2)))
  }

  /** What a receiver makes of a payload, given the type: orders and histories only if the
      length is right, to the byte. */
  function PayloadOf(kind: Kind, b: Bytes): Payload {
    match kind
    case TRANSFER => if |b| == ORDER_SIZE then Transfer(OrderOf(b)) else Text(|b|)
    case BALANCE_HISTORY =>
      if |b| >= HISTORY_HEAD && |b| == HISTORY_HEAD + CELL_SIZE * b[1]
      then Balances(IdOf(b[0]), CellsOf(b[HISTORY_HEAD..], b[1])) else Text(|b|)
    case STARTED => Text(|b|)
    case DONE => Text(|b|)
    case _ => if b == [] then Empty else Text(|b|)
  }

  /** The payload that goes with a type. */
  predicate Suits(kind: Kind, p: Payload) {
    match kind
    case STARTED => p.Text?
    case DONE => p.Text?
    case TRANSFER => p.Transfer?
    case BALANCE_HISTORY => p.Balances?
    case _ => p.Empty?
  }

  /** A frame the bank can send: the stamp and all fields are in range, the text is as
      long as it says. */
  predicate Sendable(f: Frame, text: Bytes) {
    && Int16(f.ts) && Suits(f.kind, f.payload) && PayloadFits(f.payload)
    && (f.payload.Text? ==> |text| == f.payload.size)
  }

  lemma WordAt(b: Bytes, x: int, at: nat)
    requires -32768 <= x <= 32767 && at + 2 <= |b| && b[at..at + 2] == Word(x % 65536)
    ensures Signed(Field(b, at)) == x
  {
    assert b[at] == b[at..at + 2][0] && b[at + 1] == b[at..at + 2][1];
    SignedBack(x);
  }

  lemma CellBack(c: Cell, rest: Bytes)
    requires CellFits(c)
    ensures CellOf(CellBytes(c) + rest) == c && (CellBytes(c) + rest)[CELL_SIZE..] == rest
  {
    var b := CellBytes(c) + rest;
    WordAt(b, c.balance, 0);
    WordAt(b, c.time, 2);
    WordAt(b, c.pending, 4);
  }

  lemma {:induction false} CellsBack(l: Cells, rest: Bytes)
    requires CellsFit(l)
    ensures CellsOf(CellsBytes(l) + rest, |l|) == l
  {
    if l != [] {
      var tail := CellsBytes(l[1..]) + rest;
      assert CellsBytes(l) + rest == CellBytes(l[0]) + tail;
      CellBack(l[0], tail);
      CellsBack(l[1..], rest);
    }
  }

  lemma OrderBack(o: Order)
    requires Id(o.src) && Id(o.dst) && Int16(o.amount)
    ensures |PayloadBytes(Transfer(o), [])| == ORDER_SIZE && OrderOf(PayloadBytes(Transfer(o), [])) == o
  {
    WordAt(PayloadBytes(Transfer(o), []), o.amount, 2);
  }

  lemma HistoryBack(owner: nat, cells: Cells)
    requires PayloadFits(Balances(owner, cells))
    ensures PayloadOf(BALANCE_HISTORY, PayloadBytes(Balances(owner, cells), [])) == Balances(owner, cells)
  {
    var b := PayloadBytes(Balances(owner, cells), []);
    assert b[HISTORY_HEAD..] == CellsBytes(cells) + [];
    CellsBack(cells, []);
  }

  /** Reading a payload gives back what was written. */
  lemma PayloadBack(kind: Kind, p: Payload, text: Bytes)
    requires PayloadFits(p) && Suits(kind, p) && (p.Text? ==> |text| == p.size)
    ensures PayloadOf(kind, PayloadBytes(p, text)) == p && |PayloadBytes(p, text)| <= MAX_PAYLOAD
  {
    match p
    case Transfer(o) => OrderBack(o);
    case Balances(owner, cells) => HistoryBack(owner, cells);
    case _ =>
  }

  // ---------- frames of the bank ----------

  function Concrete(f: Frame, text: Bytes): (p: Packet)
    requires Sendable(f, text)
  {
    Packet(Code(f.kind), f.ts, PayloadBytes(f.payload, text))
  }

  function Abstract(p: Packet): Meaning<Frame> {
    var k := KindOf(p.kind);
    if k.Type? then Means(Frame(k.kind, p.time, PayloadOf(k.kind, p.payload))) else Nothing
  }

  /** The types on the wire. */
  lemma TypesAre(kind: Kind)
    ensures Code(kind) ==
            if kind.STARTED? then 0 else if kind.DONE? then 1 else if kind.ACK? then 2 else if kind.STOP? then 3
            else if kind.TRANSFER? then 4 else if kind.BALANCE_HISTORY? then 5
            else if kind.CS_REQUEST? then 6 else if kind.CS_REPLY? then 7 else 8
    ensures KindOf(Code(kind)) == Type(kind)
  {
  }

  lemma WordIs(x: int)
    requires Int16(x)
    ensures Word(x % 65536) == [x % 256, x / 256 % 256]
  {
  }

  /** An order on the wire: one byte for each account, two for the amount. */
  lemma OrderLayout(o: Order)
    requires Id(o.src) && Id(o.dst) && Int16(o.amount)
    ensures PayloadBytes(Transfer(o), []) == [o.src as Byte, o.dst as Byte, o.amount % 256, o.amount / 256 % 256]
  {
    WordIs(o.amount);
  }

  /** A cell on the wire: balance, time, pending. */
  lemma CellLayout(c: Cell)
    requires CellFits(c)
    ensures CellBytes(c) == [c.balance % 256, c.balance / 256 % 256, c.time % 256, c.time / 256 % 256,
                             c.pending % 256, c.pending / 256 % 256]
  {
    WordIs(c.balance);
    WordIs(c.time);
    WordIs(c.pending);
  }

  /** Cell `t` of a history is found `6 t` bytes behind its head. */
  lemma {:induction false} CellPlace(l: Cells, t: nat)
    requires CellsFit(l) && t < |l|
    ensures |CellsBytes(l)| == 6 * |l| && CellsBytes(l)[6 * t..6 * t + 6] == CellBytes(l[t])
  {
    var first, rest := CellBytes(l[0]), CellsBytes(l[1..]);
    if t > 0 {
      CellPlace(l[1..], t - 1);
      assert (first + rest)[6 * t..6 * t + 6] == rest[6 * (t - 1)..6 * (t - 1) + 6];
    }
  }

  /** A history on the wire: its account, its length, and its cells. */
  lemma HistoryLayout(owner: nat, cells: Cells)
    requires PayloadFits(Balances(owner, cells))
    ensures var b := PayloadBytes(Balances(owner, cells), []);
            |b| == 2 + 6 * |cells| && b[0] == owner && b[1] == |cells| && b[2..] == CellsBytes(cells)
  {
  }

  /** The bytes of a frame say which frame it is: no two frames share an encoding. */
  lemma FrameBack(f: Frame, text: Bytes)
    requires Sendable(f, text)
    ensures Fits(Concrete(f, text)) && Abstract(Concrete(f, text)) == Means(f)
  {
    PayloadBack(f.kind, f.payload, text);
  }

  // ---------- only encodings pass ----------

  lemma WordBack(b: Bytes, at: nat)
    requires at + 2 <= |b|
    ensures Word(Signed(Field(b, at)) % 65536) == b[at..at + 2]
  {
    WordOfField(b, at);
  }

  lemma CellOnly(b: Bytes)
    requires |b| >= CELL_SIZE
    ensures CellFits(CellOf(b)) && CellBytes(CellOf(b)) == b[..CELL_SIZE]
  {
    WordBack(b, 0);
    WordBack(b, 2);
    WordBack(b, 4);
    assert b[..CELL_SIZE] == b[0..2] + b[2..4] + b[4..6];
  }

  lemma {:induction false} CellsOnly(b: Bytes, count: nat)
    requires |b| == CELL_SIZE * count
    ensures CellsFit(CellsOf(b, count)) && CellsBytes(CellsOf(b, count)) == b
  {
    if count > 0 {
      CellOnly(b);
      CellsOnly(b[CELL_SIZE..], count - 1);
      var l := CellsOf(b, count);
      assert l[1..] == CellsOf(b[CELL_SIZE..], count - 1);
      assert b == b[..CELL_SIZE] + b[CELL_SIZE..];
    }
  }

  lemma OrderOnly(b: Bytes)
    requires |b| == ORDER_SIZE && OrderOf(b).src >= 1 && OrderOf(b).dst >= 1
    ensures PayloadFits(Transfer(OrderOf(b))) && PayloadBytes(Transfer(OrderOf(b)), b) == b
  {
    WordBack(b, 2);
    assert b == [b[0], b[1]] + b[2..4];
  }

  lemma HistoryOnly(b: Bytes)
    requires |b| >= HISTORY_HEAD && |b| == HISTORY_HEAD + CELL_SIZE * b[1] && IdOf(b[0]) >= 1
    ensures var p := Balances(IdOf(b[0]), CellsOf(b[HISTORY_HEAD..], b[1]));
            PayloadFits(p) && PayloadBytes(p, b) == b
  {
    CellsOnly(b[HISTORY_HEAD..], b[1]);
    assert b == [b[0], b[1]] + b[HISTORY_HEAD..];
  }

  /** What is read as a frame of the bank, with the payload its type calls for and accounts
      other than 0, is one of the encodings of that frame. */
  lemma FrameOnly(p: Packet, f: Frame)
    requires Fits(p) && Abstract(p) == Means(f) && Suits(f.kind, f.payload)
    requires f.payload.Transfer? ==> f.payload.order.src >= 1 && f.payload.order.dst >= 1
    requires f.payload.Balances? ==> f.payload.owner >= 1
    ensures Sendable(f, p.payload) && p == Concrete(f, p.payload)
  {
    match f.payload
    case Transfer(_) => OrderOnly(p.payload);
    case Balances(_, _) => HistoryOnly(p.payload);
    case _ =>
  }
}
