/** A client that closes before the proxy has a server connection for it. */
module EarlyClose {
  import opened Tcp
  import opened Connection
  import opened Splice
  import opened Machine
  import opened JointStates
  import opened SpliceRuns
  import opened Wire

  /** A FIN the client may send: no SYN, not below `toClient`, the acknowledgement the client got last. */
  predicate ClientFinPacket(sock: Sock, toClient: U32, p: Packet) {
    p.src == sock && p.fin && !p.syn && p.seqn >= toClient
  }

  /** A later client packet that neither closes again nor resets. */
  predicate PlainPacket(sock: Sock, toClient: U32, p: Packet) {
    p.src == sock && !p.fin && !p.syn && !p.rst && p.seqn >= toClient
  }

  function Appended(r: Option<Record>, cs: seq<TcpState>, ss: seq<TcpState>): Option<Record> {
    if r.Some? then
      Some(Record(r.value.cStates + cs, r.value.sStates + ss, ActiveClose, PassiveClose))
    else None
  }

  lemma FinStep(cfg: Config, c: Con, p: Packet, env: Env)
    requires c.cState == Established && c.sState in {Listen, SynReceived} && ClientFinPacket(c.sock, c.q.ackP2c, p)
    ensures ClientBranchOf(c, p) == FinEarly
    ensures var c1, o := ClientNext(cfg, c, p, env), ClientOut(cfg, c, p, env);
      && c1.Pair() == (FinWait1, LastAck) && !o.release && o.group == TO_WIRE && o.queued == []
      && o.pkt == MakeReply(p).(seqn := WrapAdd(c.q.cSeqn, 1))
      && c1.q.word == WrapAdd(WrapAdd(c.q.cSeqn, 1), 1) && c1.q.ackP2c == c.q.ackP2c
      && c1.record == Appended(c.record, [FinWait1], [LastAck])
  {
    EarlyArm(c.q, c.Pair(), p);
    hide AfterSelect, AfterToServer, ToServer, SynToServer, SynReply, ClassifyClient, WrapAdd, ClientCountC, ClientCountS;
  }

  lemma EarlyArm(q: Words, j: Pair, p: Packet)
    requires j.0 == Established && j.1 in {Listen, SynReceived} && p.fin && !p.syn && p.seqn >= q.ackP2c
    ensures ClassifyClient(q, j, p) == FinEarly && !ForwardsClient(j)
  {
  }

  lemma AckArm(q: Words, p: Packet)
    requires !p.fin && !p.syn && !p.rst && p.seqn >= q.ackP2c
    ensures ClassifyClient(q, (FinWait1, LastAck), p) == if p.ack && p.ackn == q.word then FinalAck else Quiet
  {
  }

  lemma AckStep(cfg: Config, c: Con, p: Packet, env: Env)
    requires c.Pair() == (FinWait1, LastAck) && PlainPacket(c.sock, c.q.ackP2c, p)
    ensures var c1, o := ClientNext(cfg, c, p, env), ClientOut(cfg, c, p, env);
      && (o.release <==> p.ack && p.ackn == c.q.word)
      && (o.release ==> c1.Pair() == (Closed, Closed) && c1.record == PushC(PushS(c.record, Closed), Closed))
  {
    hide ClassifyClient, ClientWords, ClientPacket, AfterToServer, ToServer, PushC, PushS;
    AckArm(c.q, p);
  }

  /** A FIN from an established client while there is no server connection: the proxy answers FIN-ACK at its own next
      number R+1, and sends nothing to a server. */
  lemma ProxyAnswers(life: Life, p: Packet, env: Env)
    requires life.Valid() && life.Live()
    requires life.Now().Pair() in {(Established, Listen), (Established, SynReceived)}
    requires ClientFinPacket(life.c0.sock, NumbersAt(life, |life.log|).toClient, p)
    ensures var r, o := SetupAt(life, |life.log|).proxyIsn, Output(life.cfg, life.Now(), FromClient(p, env));
      && o.group == TO_WIRE && o.queued == [] && o.pkt.fin && o.pkt.ack && o.pkt.dst == p.src
      && o.pkt.seqn == Plus(r, 1) && o.pkt.ackn == Plus(p.seqn, 1)
    ensures var life1 := life.Then(FromClient(p, env));
      && life1.Valid() && life1.Live() && life1.Now().Pair() == (FinWait1, LastAck)
      && life1.Now().q.word == Plus(SetupAt(life, |life.log|).proxyIsn, 2)
      && life1.Now().q.ackP2c == life.Now().q.ackP2c && life1.Now().sock == life.Now().sock
      && life1.Now().record == Appended(life.Now().record, [FinWait1], [LastAck])
  {
    CurrentIsn(life);
    WordsAreOnTheWire(life, |life.log|);
    SameOwner(life, |life.log|);
    hide ClientNext, ClientOut, Listed, SetupAt, Appended, ClassifyClient, Plus, WrapAdd, NumbersAt;
    NextNumbers(life.Now().q.cSeqn);
    NextNumbers(p.seqn);
    FinStep(life.cfg, life.Now(), p, env);
    SockStays(life.cfg, life.Now(), p, env);
    life.ThenValid(FromClient(p, env));
  }

  lemma CurrentIsn(life: Life)
    requires life.Valid() && life.Now().Pair() in {(Established, Listen), (Established, SynReceived)}
    ensures life.Now().q.cSeqn == SetupAt(life, |life.log|).proxyIsn
  {
    hide Next, Output;
    AlwaysFits(life, |life.log|);
  }

  lemma SockStays(cfg: Config, c: Con, p: Packet, env: Env)
    ensures ClientNext(cfg, c, p, env).sock == c.sock
  {
  }

  /** Of the following plain client packets exactly one that acknowledges R+2 is final. With it the connection reaches
      (Closed, Closed) and is released, with the histories [.., FinWait1, Closed] and [.., LastAck, Closed] and the
      causes active and passive close. */
  lemma EarlyCloseCompletes(life: Life, p: Packet, env: Env, p2: Packet, env2: Env)
    requires life.Valid() && life.Live()
    requires life.Now().Pair() in {(Established, Listen), (Established, SynReceived)}
    requires ClientFinPacket(life.c0.sock, NumbersAt(life, |life.log|).toClient, p)
    requires PlainPacket(life.c0.sock, NumbersAt(life, |life.log|).toClient, p2)
    ensures var r, life1 := SetupAt(life, |life.log|).proxyIsn, life.Then(FromClient(p, env));
      var life2 := life1.Then(FromClient(p2, env2));
      var released := life2.Out(|life1.log|).release;
      && life2.Valid()
      && (released <==> p2.ack && p2.ackn == Plus(r, 2))
      && (released ==> life2.Now().Pair() == (Closed, Closed))
      && (released ==> life2.Now().record == Appended(life.Now().record, [FinWait1, Closed], [LastAck, Closed]))
  {
    hide ClientNext, ClientOut, Listed, SetupAt, Appended, PushC, PushS, NumbersAt;
    WordsAreOnTheWire(life, |life.log|);
    SameOwner(life, |life.log|);
    ProxyAnswers(life, p, env);
    var life1 := life.Then(FromClient(p, env));
    AppendedTwice(life.Now().record);
    AckStep(life.cfg, life1.Now(), p2, env2);
    life1.ThenValid(FromClient(p2, env2));
  }

  lemma AppendedTwice(r: Option<Record>)
    ensures PushC(PushS(Appended(r, [FinWait1], [LastAck]), Closed), Closed) ==
      Appended(r, [FinWait1, Closed], [LastAck, Closed])
  {
    if r.Some? {
      assert (r.value.cStates + [FinWait1]) + [Closed] == r.value.cStates + [FinWait1, Closed];
      assert (r.value.sStates + [LastAck]) + [Closed] == r.value.sStates + [LastAck, Closed];
    }
  }
}
