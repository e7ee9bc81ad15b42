/** Message types and clock arithmetic shared by both laboratory works. */
module Wire {
  const PARENT: nat := 0
  const INT16_MIN: int := -32768
  const INT16_MAX: int := 32767

  datatype Kind =
    | STARTED | DONE | ACK | STOP | TRANSFER | BALANCE_HISTORY
    | CS_REQUEST | CS_REPLY | CS_RELEASE

  /** A frame as the protocol sees it: type, Lamport stamp and payload length.
      The sender is known from the channel the frame arrives on. */
  datatype Msg = Msg(kind: Kind, ts: int, size: nat)

  predicate IsCs(kind: Kind) {
    kind.CS_REQUEST? || kind.CS_REPLY? || kind.CS_RELEASE?
  }

  /** Clock after delivering a frame stamped `remote`. */
  function Later(clock: int, remote: int): (r: int)
    ensures r > clock && r > remote
    ensures r == clock + 1 || r == remote + 1
  {
    (if remote > clock then remote else clock) + 1
  }

  /** The check on a received stamp: clocks and stamps are 16 bits wide. */
  predicate ClockRefuses(clock: int, remote: int) {
    remote < 0 || remote == INT16_MAX || clock == INT16_MAX
  }

  /** The request order: timestamp first, process id second. */
  predicate Before(ts: int, id: nat, ts': int, id': nat) {
    ts < ts' || (ts == ts' && id < id')
  }
}
