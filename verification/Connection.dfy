/** The per-connection record of the connection manager. */
module Connection {
  import opened Tcp

  /** Cell of the timer wheel: slot and index within the slot. */
  type WheelPos = (nat, nat)

  /** What the shared word of the sequence-number union currently means. */
  datatype WordUse = ForwardSeqn | AckForFin

  /** The sequence-number words of a connection; `word` is the union, `wordUse` its tag. */
  datatype Words = Words(
    cSeqn: U32, ackP2s: U32, ackP2c: U32,
    word: U32, wordUse: WordUse, inserted: Delta, seqnFinP2s: U32)

  const ZeroWords := Words(0, 0, 0, 0, ForwardSeqn, 0, 0)

  /** The pair of history records kept when detailed records are on. */
  datatype Record = Record(cStates: seq<TcpState>, sStates: seq<TcpState>, cCause: Cause, sCause: Cause)

  const FreshRecord := Record([], [], Unknown, Unknown)

  /** Slots of the server-side history array. */
  const HISTORY_SLOTS: nat := 7

  function PushC(r: Option<Record>, s: TcpState): Option<Record> {
    if r.Some? then Some(r.value.(cStates := r.value.cStates + [s])) else None
  }

  function PushS(r: Option<Record>, s: TcpState): Option<Record> {
    if r.Some? then Some(r.value.(sStates := r.value.sStates + [s])) else None
  }

  function CauseC(r: Option<Record>, cause: Cause): Option<Record> {
    if r.Some? then Some(r.value.(cCause := cause)) else None
  }

  function CauseS(r: Option<Record>, cause: Cause): Option<Record> {
    if r.Some? then Some(r.value.(sCause := cause)) else None
  }

  /** Restarts the server-side history, which happens when the SYN goes out to the server. */
  function InitS(r: Option<Record>): Option<Record> {
    if r.Some? then Some(r.value.(sStates := [])) else None
  }

  /** The state a history shows last; an empty one stands for its initial state. */
  function Last(states: seq<TcpState>, initial: TcpState): TcpState {
    if states == [] then initial else states[|states| - 1]
  }

  type Pair = (TcpState, TcpState)

  /** The value of a connection. */
  datatype Con = Con(
    sock: Sock, port: U16, wheel: WheelPos, serverIndex: nat, held: Option<Packet>,
    q: Words, cState: TcpState, sState: TcpState, record: Option<Record>)
  {
    predicate InUse() {
      port != 0
    }

    function Pair(): Pair {
      (cState, sState)
    }

    /** Only the port and the record handle are given up; every other field keeps its last value. */
    function Released(): Con {
      this.(port := 0, record := None)
    }
  }

  /** A connection slot that was never used. */
  const Vacant := Con(Sock(0, 0), 0, (0, 0), 0, None, ZeroWords, Closed, Listen, None)

  /** A connection slot just handed to a client socket. */
  function Fresh(sock: Sock, port: U16, detailed: bool): Con {
    Con(sock, port, (0, 0), 0, None, ZeroWords, Closed, Listen, if detailed then Some(FreshRecord) else None)
  }

  /** Nothing of an earlier use of the slot is left in it. */
  lemma FreshIsBlank(sock: Sock, port: U16, detailed: bool)
    ensures var c := Fresh(sock, port, detailed);
      && c.sock == sock && c.port == port && c.held == None && c.serverIndex == 0 && c.Pair() == (Closed, Listen)
      && c.q.cSeqn == c.q.ackP2s == c.q.ackP2c == c.q.word == c.q.seqnFinP2s == 0 && c.q.inserted == 0
      && (c.record.Some? <==> detailed)
      && (detailed ==> c.record.value.cStates == c.record.value.sStates == [] &&
                       c.record.value.cCause == c.record.value.sCause == Unknown)
  {
  }

  class ProxyConnection {
    var payloadPacket: Option<Packet>
    var clientSock: Sock
    var cSeqn: U32
    var ackP2s: U32
    var ackP2c: U32
    var word: U32
    ghost var wordUse: WordUse
    var inserted: Delta
    var seqnFinP2s: U32
    var proxyPort: U16
    var wheelPos: WheelPos
    var cState: TcpState
    var sState: TcpState
    var serverIndex: nat
    var record: Option<Record>

    ghost function WordsView(): Words
      reads this
    {
      Words(cSeqn, ackP2s, ackP2c, word, wordUse, inserted, seqnFinP2s)
    }

    ghost function View(): Con
      reads this
    {
      Con(clientSock, proxyPort, wheelPos, serverIndex, payloadPacket, WordsView(), cState, sState, record)
    }

    constructor ()
      ensures View() == Vacant
    {
      payloadPacket, clientSock, record := None, Sock(0, 0), None;
      cSeqn, ackP2s, ackP2c, word, wordUse, inserted, seqnFinP2s := 0, 0, 0, 0, ForwardSeqn, 0, 0;
      proxyPort, wheelPos, serverIndex := 0, (0, 0), 0;
      cState, sState := Closed, Listen;
    }

    method Initialize(sock: Sock, port: U16, detailed: bool)
      modifies this
      ensures View() == Fresh(sock, port, detailed)
    {
      ResetWords();
      payloadPacket, wheelPos, clientSock, proxyPort, serverIndex := None, (0, 0), sock, port, 0;
      cState, sState := Closed, Listen;
      record := if detailed then Some(FreshRecord) else None;
    }

    /** The part of the initialization that clears the sequence-number words. */
    method ResetWords()
      modifies this
      ensures View() == old(View()).(q := ZeroWords)
    {
      cSeqn := 0;
      word, wordUse := 0, ForwardSeqn;
      ackP2s, ackP2c, inserted, seqnFinP2s := 0, 0, 0, 0;
    }

    method Release()
      modifies this
      ensures View() == old(View()).Released()
    {
      proxyPort := 0;
      record := None;
    }

    method CPushState(s: TcpState)
      modifies this
      ensures View() == old(View()).(cState := s, record := PushC(old(record), s))
    {
      if record.Some? {
        record := Some(record.value.(cStates := record.value.cStates + [s]));
      }
      cState := s;
    }

    method SPushState(s: TcpState)
      modifies this
      ensures View() == old(View()).(sState := s, record := PushS(old(record), s))
    {
      if record.Some? {
        record := Some(record.value.(sStates := record.value.sStates + [s]));
      }
      sState := s;
    }

    method SInit()
      modifies this
      ensures View() == old(View()).(record := InitS(old(record)))
    {
      if record.Some? {
        record := Some(record.value.(sStates := []));
      }
    }

    method SetReleaseCause(cause: Cause)
      modifies this
      ensures View() == old(View()).(record := CauseC(old(record), cause))
    {
      if record.Some? {
        record := Some(record.value.(cCause := cause));
      }
    }

    method SSetReleaseCause(cause: Cause)
      modifies this
      ensures View() == old(View()).(record := CauseS(old(record), cause))
    {
      if record.Some? {
        record := Some(record.value.(sCause := cause));
      }
    }
  }
}
