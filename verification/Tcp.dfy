/** Words, packets, TCP states and statistics shared by every part of the proxy. */
module Tcp {

  const MOD32: int := 0x1_0000_0000

  type U32 = x: int | 0 <= x < 0x1_0000_0000
  type U16 = x: int | 0 <= x < 0x1_0000

  /** Byte counts a payload callback can insert (positive) or remove (negative). */
  type Delta = x: int | -0x1_0000 < x < 0x1_0000

  /** A TCP payload; its length always fits the 16-bit IP length field. */
  type Payload = s: seq<bv8> | |s| < 0x1_0000

  datatype Option<+T> = None | Some(value: T)

  // ---------- modular sequence numbers (RFC 9293, section 3.4) ----------

  function WrapAdd(a: U32, b: U32): U32 {
    if a + b < MOD32 then a + b else a + b - MOD32
  }

  function WrapSub(a: U32, b: U32): U32 {
    if a >= b then a - b else a - b + MOD32
  }

  /** Adding a signed byte count, as the two branches on its sign do. */
  function Shift(a: U32, d: Delta): U32 {
    if d >= 0 then WrapAdd(a, d) else WrapSub(a, -d)
  }

  lemma WrapIsModular(a: U32, b: U32, d: Delta)
    ensures WrapAdd(a, b) == (a + b) % MOD32 && WrapSub(a, b) == (a - b) % MOD32 && Shift(a, d) == (a + d) % MOD32
  {
  }

  // ---------- TCP states ----------

  datatype TcpState =
    | Listen | SynReceived | SynSent | Established | CloseWait
    | LastAck | FinWait1 | Closing | FinWait2 | Closed

  /** The declaration order of the state enumeration, which the proxy compares with `<` and `>=`. */
  function Rank(s: TcpState): nat {
    match s
    case Listen => 0
    case SynReceived => 1
    case SynSent => 2
    case Established => 3
    case CloseWait => 4
    case LastAck => 5
    case FinWait1 => 6
    case Closing => 7
    case FinWait2 => 8
    case Closed => 9
  }

  predicate AtLeast(s: TcpState, t: TcpState) {
    Rank(s) >= Rank(t)
  }

  datatype Cause = Unknown | PassiveClose | ActiveClose | ActiveRst | Timeout

  // ---------- packets ----------

  datatype Sock = Sock(ip: U32, port: U16)

  datatype Packet = Packet(
    src: Sock, dst: Sock,
    syn: bool, ack: bool, fin: bool, rst: bool, psh: bool,
    seqn: U32, ackn: U32, payload: Payload)

  /** Swaps the endpoints and acknowledges `p.seqn + 1`. */
  function MakeReply(p: Packet): Packet {
    p.(src := p.dst, dst := p.src, ack := true, ackn := WrapAdd(p.seqn, 1))
  }

  /** The sequence number just after a FIN segment. */
  function FinEnd(seqn: U32, payload: Payload): U32 {
    WrapAdd(seqn, |payload| + 1)
  }

  // ---------- statistics ----------

  datatype Stat =
    | RecvSyn | SentSyn | SentSynAck | RecvSynAck | RecvSynAck2 | SentSynAck2
    | RecvFin | SentFin | RecvFinPssv | SentFinPssv | RecvAck4Fin | SentAck4Fin
    | RecvRst | RecvPayload | SentPayload | Unexpected

  /** A counter vector: the multiplicity of a statistic is its value. */
  type Counter = multiset<Stat>
}
