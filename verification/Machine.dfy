/** One step of the joint client/server TCP state machine, for one connection. */
module Machine {
  import opened Tcp
  import opened Connection
  import opened Splice

  /** What one packet does besides updating the connection. */
  datatype Out = Out(
    group: nat, pkt: Packet, queued: seq<Packet>,
    release: bool, armed: bool, cInc: Counter, sInc: Counter)

  /** The inputs of a client-side step that do not come from the packet:
      a time stamp, the wheel cell a timer would get, and the results of the two callbacks. */
  datatype Env = Env(isn: U32, pos: WheelPos, sel: Selection, processed: Payload)

  const DUMP: nat := 0
  const TO_WIRE: nat := 1
  const TO_KERNEL: nat := 2

  // ---------- client side ----------

  /** The arms of the client-side branch chain. */
  datatype ClientBranch =
    | Resent | OpenSyn | StraySyn | HandshakeAck
    | FinAnswer | FinCrossing | FinEarly | FinFirst
    | Reset | AckOfFin | FinalAck | FirstPayload | Stray | Quiet

  function ClassifyClient(q: Words, j: Pair, p: Packet): ClientBranch {
    if j.0 != Closed && p.seqn < q.ackP2c then Resent
    else if p.syn then
      if j.0 == Closed then OpenSyn else StraySyn
    else if p.ack && j.0 == SynSent then HandshakeAck
    else if p.fin then
      if AtLeast(j.1, FinWait1) then
        if p.ack && p.ackn == q.word then FinAnswer else FinCrossing
      else
        if AtLeast(j.1, Established) then FinFirst else FinEarly
    else if p.rst then Reset
    else if p.ack && p.ackn == q.word && AtLeast(j.1, FinWait1) then AckOfFin
    else if j.1 == LastAck && p.ack && p.ackn == q.word then FinalAck
    else if j == (Established, Listen) then FirstPayload
    else if !AtLeast(j.1, SynReceived) || !AtLeast(j.0, Established) then Stray
    else Quiet
  }

  function ClientBranchOf(c: Con, p: Packet): ClientBranch {
    ClassifyClient(c.q, c.Pair(), p)
  }

  /** The joint state after an arm. */
  function ClientPair(b: ClientBranch, j: Pair): Pair {
    match b
    case OpenSyn => (SynSent, j.1)
    case HandshakeAck => (Established, j.1)
    case FinAnswer => (LastAck, j.1)
    case FinCrossing => (Closing, if j.1 == FinWait1 then Closing else if j.1 == FinWait2 then Closed else j.1)
    case FinEarly => (FinWait1, LastAck)
    case FinFirst => (FinWait1, j.1)
    case Reset => (Closed, j.1)
    case AckOfFin =>
      (match j.0 case Established => CloseWait case FinWait1 => Closing case FinWait2 => Closed case _ => j.0,
       match j.1 case FinWait1 => FinWait2 case Closing => Closed case _ => j.1)
    case FinalAck => (Closed, Closed)
    case FirstPayload => (j.0, SynReceived)
    case _ => j
  }

  function ClientRecord(b: ClientBranch, j: Pair, r: Option<Record>): Option<Record> {
    match b
    case OpenSyn => PushC(r, SynSent)
    case HandshakeAck => PushC(r, Established)
    case FinAnswer => PushC(CauseC(r, PassiveClose), LastAck)
    case FinCrossing =>
      var r1 := PushC(CauseC(r, ActiveClose), Closing);
      if j.1 == FinWait1 then PushS(r1, Closing) else if j.1 == FinWait2 then PushS(r1, Closed) else r1
    case FinEarly => CauseS(PushS(PushC(CauseC(r, ActiveClose), FinWait1), LastAck), PassiveClose)
    case FinFirst => PushC(CauseC(r, ActiveClose), FinWait1)
    case Reset => CauseC(PushC(r, Closed), ActiveRst)
    case AckOfFin =>
      var r1 := match j.1 case FinWait1 => PushS(r, FinWait2) case Closing => PushS(r, Closed) case _ => r;
      (match j.0
       case Established => PushC(r1, CloseWait)
       case FinWait1 => PushC(r1, Closing)
       case FinWait2 => PushC(r1, Closed)
       case _ => r1)
    case FinalAck => PushC(PushS(r, Closed), Closed)
    case FirstPayload => PushS(InitS(r), SynReceived)
    case _ => r
  }

  /** The words after an arm, before any forwarding. */
  function ClientWords(b: ClientBranch, q: Words, p: Packet, env: Env): Words {
    match b
    case OpenSyn => AfterSyn(q, p, env.isn)
    case FinEarly => q.(cSeqn := WrapAdd(q.cSeqn, 1), word := WrapAdd(WrapAdd(q.cSeqn, 1), 1), wordUse := AckForFin)
    case FirstPayload => AfterSelect(q, p, env.sel.payload)
    case _ => q
  }

  /** The packet after an arm, before any forwarding: two arms answer the client, one opens the server side. */
  function ClientPacket(cfg: Config, b: ClientBranch, c: Con, p: Packet, env: Env): Packet {
    match b
    case OpenSyn => SynReply(p, env.isn)
    case FinEarly => MakeReply(p).(seqn := WrapAdd(c.q.cSeqn, 1))
    case FirstPayload => SynToServer(p, Sock(cfg.ipS, c.port), cfg.servers(env.sel.server))
    case _ => p
  }

  /** Client packets are forwarded by the states the connection had before the packet. */
  predicate ForwardsClient(j: Pair) {
    AtLeast(j.1, Established) && !AtLeast(j.1, Closed) && AtLeast(j.0, Established)
  }

  /** The connection after an arm, before any forwarding. */
  function ClientArm(cfg: Config, b: ClientBranch, c: Con, p: Packet, env: Env): Con {
    var j := ClientPair(b, c.Pair());
    Con(c.sock, c.port,
        if b == OpenSyn then env.pos else c.wheel,
        if b == FirstPayload then env.sel.server else c.serverIndex,
        if b == FirstPayload then
          Some(HeldPacket(p, Sock(cfg.ipS, c.port), cfg.servers(env.sel.server), env.sel.payload))
        else c.held,
        ClientWords(b, c.q, p, env), j.0, j.1, ClientRecord(b, c.Pair(), c.record))
  }

  function ClientNext(cfg: Config, c: Con, p: Packet, env: Env): Con {
    var b := ClientBranchOf(c, p);
    var arm := ClientArm(cfg, b, c, p, env);
    arm.(q := if ForwardsClient(c.Pair()) then AfterToServer(arm.q, ClientPacket(cfg, b, c, p, env)) else arm.q)
  }

  /** Client-side statistics an arm counts. */
  function ClientCountC(b: ClientBranch): Counter {
    match b
    case OpenSyn => multiset{RecvSyn, SentSynAck}
    case HandshakeAck => multiset{RecvSynAck2}
    case FinAnswer => multiset{RecvFinPssv, RecvAck4Fin}
    case FinCrossing => multiset{RecvFin}
    case FinEarly => multiset{RecvFin, SentFinPssv, SentAck4Fin}
    case FinFirst => multiset{RecvFin}
    case Reset => multiset{RecvRst}
    case AckOfFin => multiset{RecvAck4Fin}
    case FinalAck => multiset{RecvAck4Fin}
    case FirstPayload => multiset{RecvPayload}
    case Stray => multiset{Unexpected}
    case _ => multiset{}
  }

  /** Server-side statistics an arm of the client chain counts. */
  function ClientCountS(b: ClientBranch): Counter {
    match b
    case FinAnswer => multiset{SentFinPssv, SentAck4Fin}
    case FinCrossing => multiset{SentFin}
    case FinFirst => multiset{SentFin}
    case AckOfFin => multiset{SentAck4Fin}
    case FinalAck => multiset{SentAck4Fin}
    case FirstPayload => multiset{SentSyn}
    case _ => multiset{}
  }

  function ClientGroup(b: ClientBranch): nat {
    match b
    case OpenSyn => TO_WIRE
    case FinAnswer => TO_WIRE
    case FinCrossing => TO_WIRE
    case FinEarly => TO_WIRE
    case FinFirst => TO_WIRE
    case FirstPayload => TO_WIRE
    case Stray => TO_KERNEL
    case _ => DUMP
  }

  function ClientOut(cfg: Config, c: Con, p: Packet, env: Env): Out {
    var b := ClientBranchOf(c, p);
    var pkt := ClientPacket(cfg, b, c, p, env);
    var next := ClientNext(cfg, c, p, env);
    Out(if ForwardsClient(c.Pair()) then TO_WIRE else ClientGroup(b),
        if ForwardsClient(c.Pair()) then
          ToServer(ClientWords(b, c.q, p, env), pkt, Sock(cfg.ipS, c.port), cfg.servers(next.serverIndex), env.processed)
        else pkt,
        [],
        b == Reset || next.Pair() == (Closed, Closed),
        b == OpenSyn,
        ClientCountC(b), ClientCountS(b))
  }

  // ---------- server side ----------

  /** The arms of the server-side branch chain. */
  datatype ServerBranch =
    | SynAckAccepted | SynAckStray
    | ServerFinAnswer | ServerFinCrossing | ServerFinFirst
    | ServerAckOfFin | ServerAck | Other

  function ClassifyServer(q: Words, j: Pair, p: Packet): ServerBranch {
    if p.ack && p.syn then
      if j.1 == SynReceived then SynAckAccepted else SynAckStray
    else if p.fin then
      if AtLeast(j.0, FinWait1) then
        if p.ack && p.ackn == WrapAdd(q.seqnFinP2s, 1) then ServerFinAnswer else ServerFinCrossing
      else ServerFinFirst
    else if AtLeast(j.0, LastAck) && p.ack then
      if p.ackn == WrapAdd(q.seqnFinP2s, 1) then ServerAckOfFin else ServerAck
    else Other
  }

  function ServerBranchOf(c: Con, p: Packet): ServerBranch {
    ClassifyServer(c.q, c.Pair(), p)
  }

  function ServerPair(b: ServerBranch, j: Pair): Pair {
    match b
    case SynAckAccepted => (j.0, Established)
    case ServerFinAnswer => (j.0, LastAck)
    case ServerFinCrossing => (if j.0 == FinWait1 then Closing else if j.0 == FinWait2 then Closed else j.0, Closing)
    case ServerFinFirst => (j.0, FinWait1)
    case ServerAckOfFin =>
      (match j.0
       case LastAck => (Closed, Closed)
       case FinWait1 => (FinWait2, j.1)
       case Closing => (Closed, j.1)
       case _ => j)
    case _ => j
  }

  function ServerRecord(b: ServerBranch, j: Pair, r: Option<Record>): Option<Record> {
    match b
    case SynAckAccepted => PushS(r, Established)
    case ServerFinAnswer => PushS(CauseS(r, PassiveClose), LastAck)
    case ServerFinCrossing =>
      var r1 := PushS(CauseS(r, ActiveClose), Closing);
      if j.0 == FinWait1 then PushC(r1, Closing) else if j.0 == FinWait2 then PushC(r1, Closed) else r1
    case ServerFinFirst => CauseS(PushS(r, FinWait1), ActiveClose)
    case ServerAckOfFin =>
      (match j.0
       case LastAck => PushS(PushC(r, Closed), Closed)
       case FinWait1 => PushC(r, FinWait2)
       case Closing => PushC(r, Closed)
       case _ => r)
    case _ => r
  }

  predicate ForwardsServer(j: Pair) {
    AtLeast(j.1, Established) && AtLeast(j.0, Established) && !AtLeast(j.0, Closed)
  }

  /** The connection after an arm, before any forwarding. */
  function ServerArm(b: ServerBranch, c: Con, p: Packet): Con {
    var j := ServerPair(b, c.Pair());
    Con(c.sock, c.port, c.wheel, c.serverIndex,
        if b == SynAckAccepted then None else c.held,
        if b == SynAckAccepted then AfterSynAck(c.q, c.held, p) else c.q,
        j.0, j.1, ServerRecord(b, c.Pair(), c.record))
  }

  function ServerNext(c: Con, p: Packet): Con {
    var arm := ServerArm(ServerBranchOf(c, p), c, p);
    arm.(q := if ForwardsServer(c.Pair()) then AfterToClient(arm.q, p) else arm.q)
  }

  function ServerCountS(b: ServerBranch): Counter {
    match b
    case SynAckAccepted => multiset{RecvSynAck, SentSynAck2, SentPayload}
    case SynAckStray => multiset{RecvSynAck}
    case ServerFinAnswer => multiset{RecvFinPssv, RecvAck4Fin}
    case ServerFinCrossing => multiset{RecvFin}
    case ServerFinFirst => multiset{RecvFin}
    case ServerAckOfFin => multiset{RecvAck4Fin}
    case _ => multiset{}
  }

  function ServerCountC(b: ServerBranch): Counter {
    match b
    case ServerFinAnswer => multiset{SentFinPssv, SentAck4Fin}
    case ServerFinCrossing => multiset{SentFin}
    case ServerFinFirst => multiset{SentFin}
    case ServerAckOfFin => multiset{SentAck4Fin}
    case _ => multiset{}
  }

  function ServerOut(cfg: Config, c: Con, p: Packet): Out {
    var b := ServerBranchOf(c, p);
    Out(if ForwardsServer(c.Pair()) then TO_WIRE else if b == Other then TO_KERNEL else DUMP,
        if b == SynAckAccepted then HandshakeAckToServer(c.q, p)
        else if ForwardsServer(c.Pair()) then ToClient(c.q, p, cfg.me, c.sock)
        else p,
        if b == SynAckAccepted then SynAckQueue(c.q, c.held, p) else [],
        ServerPair(b, c.Pair()) == (Closed, Closed),
        false,
        ServerCountC(b), ServerCountS(b))
  }

  // ---------- runs of one connection ----------

  /** A packet of the connection, from either side. */
  datatype Ev = FromClient(p: Packet, env: Env) | FromServer(p: Packet)

  function Next(cfg: Config, c: Con, e: Ev): Con {
    match e
    case FromClient(p, env) => ClientNext(cfg, c, p, env)
    case FromServer(p) => ServerNext(c, p)
  }

  function Output(cfg: Config, c: Con, e: Ev): Out {
    match e
    case FromClient(p, env) => ClientOut(cfg, c, p, env)
    case FromServer(p) => ServerOut(cfg, c, p)
  }

  /** The packets the manager can route to a connection: a client SYN first of all. */
  predicate Routed(c: Con, e: Ev) {
    match e
    case FromClient(p, _) => p.src == c.sock && (c.Pair() == (Closed, Listen) ==> p.syn)
    case FromServer(p) => p.dst.port == c.port && c.Pair() != (Closed, Listen)
  }

  /** What one allocation of a connection sees: its initial value and its packets. */
  datatype Life = Life(cfg: Config, c0: Con, log: seq<Ev>)
  {
    /** The connection after the first `n` packets. */
    function At(n: nat): Con
      requires n <= |log|
    {
      if n == 0 then c0 else Next(cfg, At(n - 1), log[n - 1])
    }

    /** What packet number `n` does. */
    function Out(n: nat): Out
      requires n < |log|
    {
      Output(cfg, At(n), log[n])
    }

    /** A slot just allocated, routed packets, and none after the one that releases the connection. */
    ghost predicate Valid() {
      && c0.InUse()
      && c0 == Fresh(c0.sock, c0.port, c0.record.Some?)
      && (forall n :: 0 <= n < |log| ==> Routed(At(n), log[n]))
      && (forall n :: 0 <= n < |log| - 1 ==> !Out(n).release)
    }

    /** The connection is still in use after all packets. */
    predicate Live() {
      log != [] && !Out(|log| - 1).release
    }

    function Now(): Con {
      At(|log|)
    }

    function Then(e: Ev): Life {
      this.(log := log + [e])
    }

    lemma {:induction false} ThenAt(e: Ev, n: nat)
      requires n <= |log|
      ensures Then(e).At(n) == At(n)
      decreases n
    {
      hide Next;
      if n > 0 {
        ThenAt(e, n - 1);
      }
    }

    lemma ThenBefore(e: Ev, n: nat)
      requires n < |log|
      ensures Then(e).At(n) == At(n) && Then(e).log[n] == log[n] && Then(e).Out(n) == Out(n)
    {
      hide Next, Output;
      ThenAt(e, n);
    }

    /** A life goes on with any packet routed to it. */
    lemma ThenValid(e: Ev)
      requires Valid() && (Live() || log == []) && Routed(Now(), e)
      ensures Then(e).Valid() && Then(e).Now() == Next(cfg, Now(), e) && Then(e).Out(|log|) == Output(cfg, Now(), e)
    {
      hide Next, Output, Routed, Fresh;
      ThenAt(e, |log|);
      var life := Then(e);
      forall n | 0 <= n < |life.log| ensures Routed(life.At(n), life.log[n]) {
        if n < |log| {
          ThenBefore(e, n);
        }
      }
      forall n | 0 <= n < |life.log| - 1 ensures !life.Out(n).release {
        ThenBefore(e, n);
      }
    }
  }
}
